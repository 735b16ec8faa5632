/** The bytes a client is sent, when the messages are those that the duplicate
    window lets through: who may hold the client for them to be a prefix. */
module Broadcasts {
  import opened Strtok
  import opened Delivery
  import opened QueueNode

  /** What is broadcast of the texts that come in while the window is as it is. */
  function Since(window: seq<string>, texts: seq<string>): seq<string> {
    Feeds(History(window, []), texts).broadcasts
  }

  /** Whatever comes in, and whatever the socket does: a client that joins when the
      window is as it is, and is held elsewhere as in shared, has been sent a prefix
      of what has been broadcast since. */
  ghost predicate PrefixKept(window: seq<string>, shared: seq<bool>) {
    forall texts, answers | |Since(window, texts)| == |shared| ::
      Deliveries(Joined(answers), shared, Since(window, texts)).wire <= Concat(Since(window, texts))
  }

  // ------------------------------------------------ quotes that all go out

  /** n quotes, with prices of m + 1 digits and more. */
  function Later(m: nat, n: nat): (texts: seq<string>)
    ensures |texts| == n
  {
    seq(n, i requires 0 <= i < n => Nth(m + i))
  }

  lemma LaterStep(m: nat, n: nat)
    ensures Later(m, n + 1) == Later(m, n) + [Nth(m + n)] && Later(m, n + 1)[..n] == Later(m, n)
  {
  }

  /** No key in the window is longer than m. */
  predicate Short(window: seq<string>, m: nat) {
    forall key | key in window :: |key| <= m
  }

  lemma {:induction false} LongEnough(window: seq<string>) returns (m: nat)
    ensures Short(window, m)
  {
    if window == [] {
      m := 0;
    } else {
      m := LongEnough(window[1..]);
      if |window[0]| > m { m := |window[0]|; }
      assert forall key | key in window :: key == window[0] || key in window[1..];
    }
  }

  lemma NewKey(window: seq<string>, m: nat, n: nat)
    requires Short(window, m)
    ensures Key(Nth(m + n)) !in window + Keys(Later(m, n))
  {
    hide Key, Nth;
    NthKey(m + n);
    forall i | 0 <= i < n ensures Keys(Later(m, n))[i] != Key(Nth(m + n)) { NthKey(m + i); }
  }

  /** If the prices are longer than any key in the window, every one is broadcast. */
  lemma {:induction false} AllNew(window: seq<string>, m: nat, n: nat)
    requires Short(window, m)
    ensures AllOut(window, Later(m, n))
  {
    hide AllOut, Short;
    if n == 0 {
      NothingNew(window, m);
    } else {
      AllNew(window, m, n - 1);
      NewKey(window, m, n - 1);
      OneNew(window, Later(m, n - 1), Nth(m + n - 1));
      LaterStep(m, n - 1);
    }
    hide Later, Nth, Keys;
  }

  /** All the texts are broadcast. */
  predicate AllOut(window: seq<string>, texts: seq<string>) {
    Feeds(History(window, []), texts) == History(window + Keys(texts), texts)
  }

  lemma NothingNew(window: seq<string>, m: nat)
    ensures AllOut(window, Later(m, 0))
  {
    assert Later(m, 0) == [] && Keys([]) == [];
    assert window + [] == window;
  }

  lemma OneNew(window: seq<string>, texts: seq<string>, text: string)
    requires AllOut(window, texts) && Key(text) !in window + Keys(texts)
    ensures AllOut(window, texts + [text])
  {
    KeysAppend(texts, text);
    Feeding(History(window, []), texts, text);
    hide Key, Keys, Feeds;
    assert window + (Keys(texts) + [Key(text)]) == window + Keys(texts) + [Key(text)];
  }

  lemma JoinFirst(t: string, ts: seq<string>)
    requires ts != []
    ensures Join([t] + ts) == t + [Comma] + Join(ts)
  {
    assert ([t] + ts)[1..] == ts;
  }

  /** Two neighbours agree up to the end of the shorter price, and no further. */
  lemma NthAt(i: nat)
    ensures |Nth(i)| > 10 + i && |Nth(i + 1)| > 10 + i
    ensures Nth(i)[10 + i] == Comma && Nth(i + 1)[10 + i] == '1'
  {
    NthIs(i);
    NthIs(i + 1);
    hide Nth;
  }

  lemma NthIs(i: nat)
    ensures |Nth(i)| > 10 + i && Nth(i)[10 + i] == Comma
    ensures forall k | 9 <= k < 10 + i :: Nth(i)[k] == '1'
  {
    var ones := seq(i + 1, _ => '1');
    var tail := ["1", "tc", "a", "b", "1"];
    assert Quote(ones, "1", "1") == ["q"] + (["id"] + (["sym"] + ([ones] + tail)));
    JoinFirst(ones, tail);
    JoinFirst("sym", [ones] + tail);
    JoinFirst("id", ["sym"] + ([ones] + tail));
    JoinFirst("q", ["id"] + (["sym"] + ([ones] + tail)));
    hide Join, Quote;
  }

  // --------------------------------------------------------- the gap

  lemma ConcatStep(m: nat, n: nat)
    ensures Concat(Later(m, n + 1)) == Concat(Later(m, n)) + Nth(m + n)
  {
    LaterStep(m, n);
    ConcatLast(Later(m, n + 1));
    hide Later, Concat;
  }

  /** A socket that takes the first n quotes, and nothing of the next. */
  function Takes(m: nat, n: nat): (answers: seq<int>) {
    seq(n, i requires 0 <= i < n => |Nth(m + i)|) + [0]
  }

  // The first j sends, in front of the failure.
  lemma {:induction false} TakesFirst(m: nat, n: nat, shared: seq<bool>, j: nat)
    requires j <= n && |shared| == j
    ensures Deliveries(Joined(Takes(m, n)), shared, Later(m, j)) ==
      View(false, Concat(Later(m, j)), j, Takes(m, n)[j..])
    decreases j
  {
    var answers := Takes(m, n);
    if j == 0 {
      assert Later(m, 0) == [];
    } else {
      TakesFirst(m, n, shared[..j - 1], j - 1);
      LaterStep(m, j - 1);
      ConcatStep(m, j - 1);
      var u := View(false, Concat(Later(m, j - 1)), j - 1, answers[j - 1..]);
      assert answers[j - 1..][0] == |Nth(m + j - 1)| && answers[j - 1..][1..] == answers[j..];
      NthAt(m + j - 1);
      hide Takes, Nth, Concat, Later;
      TakesWhole(u, shared[j - 1], Nth(m + j - 1));
    }
  }

  lemma TakesWhole(u: View, shared: bool, msg: string)
    requires !u.offline && msg != "" && u.answers != [] && u.answers[0] == |msg|
    ensures Deliver(u, shared, msg) == View(false, u.wire + msg, u.replies + 1, u.answers[1..])
  {
    TakenStep(u.answers, |msg|);
    assert msg[..|msg|] == msg;
  }

  lemma TakesNone(u: View, shared: bool, msg: string)
    requires !u.offline && msg != "" && u.answers == [0]
    ensures Deliver(u, shared, msg) == View(true, u.wire, u.replies, [])
  {
    assert u.wire + msg[..0] == u.wire;
  }

  lemma TakesAfterwards(u: View, msg: string)
    requires u.offline && msg != "" && u.answers == []
    ensures Deliver(u, true, msg) == View(true, u.wire + msg, u.replies + 1, [])
  {
    TakenStep(u.answers, |msg|);
    assert msg[..|msg|] == msg;
  }

  /** All before the (k-1)-th gets through, and nothing of that one. */
  lemma GapOpens(m: nat, shared: seq<bool>, k: nat)
    requires 0 < k && |shared| == k
    ensures Deliveries(Joined(Takes(m, k - 1)), shared, Later(m, k)) == View(true, Concat(Later(m, k - 1)), k - 1, [])
  {
    TakesFirst(m, k - 1, shared[..k - 1], k - 1);
    assert Takes(m, k - 1)[k - 1..] == [0];
    LaterStep(m, k - 1);
    NthAt(m + k - 1);
    hide Takes, Nth, Concat, Later, Deliver;
    TakesNone(View(false, Concat(Later(m, k - 1)), k - 1, [0]), shared[k - 1], Nth(m + k - 1));
    DeliveriesLast(Joined(Takes(m, k - 1)), shared, Later(m, k));
    hide Deliveries;
  }

  /** ... and then all of the k-th does. */
  lemma GapCloses(m: nat, shared: seq<bool>, k: nat)
    requires 0 < k && |shared| == k + 1 && shared[k]
    ensures Deliveries(Joined(Takes(m, k - 1)), shared, Later(m, k + 1)).wire == Concat(Later(m, k - 1)) + Nth(m + k)
  {
    GapOpens(m, shared[..k], k);
    LaterStep(m, k);
    NthAt(m + k);
    hide Takes, Nth, Concat, Later, Deliver;
    TakesAfterwards(View(true, Concat(Later(m, k - 1)), k - 1, []), Nth(m + k));
    DeliveriesLast(Joined(Takes(m, k - 1)), shared, Later(m, k + 1));
    hide Deliveries;
  }

  lemma DeliveriesLast(v: View, shared: seq<bool>, msgs: seq<string>)
    requires |shared| == |msgs| > 0
    ensures Deliveries(v, shared, msgs) ==
      Deliver(Deliveries(v, shared[..|msgs| - 1], msgs[..|msgs| - 1]), shared[|msgs| - 1], msgs[|msgs| - 1])
  {
  }

  lemma LaterPrefix(m: nat, j: nat, n: nat)
    requires j <= n
    ensures Later(m, n)[..j] == Later(m, j)
  {
  }

  lemma {:induction false} ConcatGrows(m: nat, j: nat, n: nat)
    requires j <= n
    ensures Concat(Later(m, j)) <= Concat(Later(m, n))
    decreases n - j
  {
    if j < n {
      ConcatGrows(m, j, n - 1);
      ConcatStep(m, n - 1);
      hide Concat, Later;
    }
  }

  lemma GapShows(m: nat, n: nat, k: nat, wire: string)
    requires 0 < k < n && Concat(Later(m, k - 1)) + Nth(m + k) <= wire
    ensures !(wire <= Concat(Later(m, n)))
  {
    var before, all := Concat(Later(m, k - 1)), Concat(Later(m, n));
    ConcatStep(m, k - 1);
    ConcatGrows(m, k, n);
    NthAt(m + k - 1);
    var p := |before| + 10 + (m + k - 1);
    hide Concat, Later, Nth;
    assert (before + Nth(m + k))[p] == Nth(m + k)[10 + (m + k - 1)];
    assert (before + Nth(m + k - 1))[p] == Nth(m + k - 1)[10 + (m + k - 1)];
  }

  /** For every window, a client held elsewhere at the k-th broadcast after it
      joined, not the first, can be sent something after a gap: the texts that come in
      are all broadcast, nothing of one gets through, and then all of the next. */
  lemma SharedLosesPrefix(window: seq<string>, shared: seq<bool>, k: nat)
    returns (texts: seq<string>, answers: seq<int>)
    requires 0 < k < |shared| && shared[k]
    ensures Since(window, texts) == texts && |texts| == |shared|
    ensures !(Deliveries(Joined(answers), shared, texts).wire <= Concat(texts))
  {
    var m := LongEnough(window);
    var n := |shared|;
    texts, answers := Later(m, n), Takes(m, k - 1);
    AllNew(window, m, n);
    LaterPrefix(m, k + 1, n);
    assert shared[..k + 1][k] == shared[k];
    GapCloses(m, shared[..k + 1], k);
    OfflineForever(Joined(answers), shared, texts, k + 1);
    hide Later, Feeds, Deliveries, Concat, Takes;
    GapShows(m, n, k, Deliveries(Joined(answers), shared, texts).wire);
  }

  /** Over all runs, from any window: what a client is sent is always a prefix of
      what is broadcast since it joined if and only if nobody else holds it at any
      of these broadcasts but the first. */
  lemma PrefixKeptIff(window: seq<string>, shared: seq<bool>)
    ensures PrefixKept(window, shared) <==> forall k | 0 < k < |shared| :: !shared[k]
  {
    hide Since, Deliveries, Concat;
    if k :| 0 < k < |shared| && shared[k] {
      var texts, answers := SharedLosesPrefix(window, shared, k);
      assert |Since(window, texts)| == |shared|;
    } else {
      forall texts, answers | |Since(window, texts)| == |shared|
        ensures Deliveries(Joined(answers), shared, Since(window, texts)).wire <= Concat(Since(window, texts))
      {
        PrefixDelivery(Joined(answers), shared, Since(window, texts));
        assert "" + Concat(Since(window, texts)) == Concat(Since(window, texts));
      }
    }
  }
}
