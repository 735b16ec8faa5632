/** ARSTClient::SendAll under arbitrary partial and failing sends, and what it
    means for the bytes a client receives over a whole run of broadcasts. */
module Delivery {

  /** What is known of a client: status, the bytes its socket has taken, how often
      its heartbeat has been told that it replied, and what its next sends will
      return if they are asked to send that much.  After these a send takes all it is given. */
  datatype View = View(offline: bool, wire: string, replies: nat, answers: seq<int>)

  /** What send(2) returns for n bytes. */
  function Answer(answers: seq<int>, n: nat): (r: int)
    ensures r <= n
  {
    if answers == [] || answers[0] > n then n else answers[0]
  }

  /** The answers after the first. */
  function Tail(answers: seq<int>): (r: seq<int>) {
    if answers == [] then [] else answers[1..]
  }

  /** How many of n bytes get through. */
  function Taken(answers: seq<int>, n: nat): (k: nat)
    ensures k <= n
    decreases n
  {
    var r := Answer(answers, n);
    if r <= 0 then 0 else r + Taken(Tail(answers), n - r)
  }

  /** What is left of the answers then. */
  function Left(answers: seq<int>, n: nat): (left: seq<int>)
    decreases n
  {
    var r := Answer(answers, n);
    if n == 0 then answers else if r <= 0 then Tail(answers) else Left(Tail(answers), n - r)
  }

  /** The client after a SendAll of buf. */
  function AfterSend(v: View, buf: string): View {
    var k := Taken(v.answers, |buf|);
    View(v.offline || k < |buf|, v.wire + buf[..k], v.replies, Left(v.answers, |buf|))
  }

  class Client {
    var Offline: bool
    var Wire: string
    var Replies: nat
    var Answers: seq<int>

    function Value(): View
      reads this
    {
      View(Offline, Wire, Replies, Answers)
    }

    constructor (answers: seq<int>)
      ensures Value() == Joined(answers)
    {
      Offline, Wire, Replies, Answers := false, "", 0, answers;
    }

    method SetStatus(offline: bool)
      modifies this`Offline
      ensures Offline == offline
    {
      Offline := offline;
    }

    method TriggerGetReplyEvent()
      modifies this`Replies
      ensures Replies == old(Replies) + 1
    {
      Replies := Replies + 1;
    }

    /** send(2): takes some first part of data, or nothing, or fails. */
    method Send(data: string) returns (sent: int)
      modifies this`Wire, this`Answers
      ensures sent == Answer(old(Answers), |data|) && Answers == Tail(old(Answers))
      ensures Wire == old(Wire) + data[..if sent > 0 then sent else 0]
    {
      sent := Answer(Answers, |data|);
      Answers := Tail(Answers);
      Wire := Wire + data[..if sent > 0 then sent else 0];
    }

    method SendAll(buf: string) returns (ok: bool)
      modifies this`Wire, this`Offline, this`Answers
      ensures Value() == AfterSend(old(Value()), buf)
      ensures ok == (Taken(old(Answers), |buf|) == |buf|)
    {
      var nSend, nSended, nToSend := 0, 0, |buf|;
      ghost var was := Value();
      SendStarts(was, buf);
      if nToSend == 0 {
        return true;
      }
      hide AfterSend, Sending, Taken;
      while true
        invariant 0 <= nSend < nToSend && nSended + nToSend - nSend == |buf| && nSend <= nSended
        invariant Sending(was, buf, nSended, Value())
        decreases nToSend - nSend
      {
        nToSend := nToSend - nSend;
        SendEnds(was, buf, nSended, Value());
        SendGoesOn(was, buf, nSended, Value());
        nSend := Send(buf[nSended..]);
        if nSend <= 0 {
          SetStatus(true);
          break;
        } else if nSend == nToSend {
          break;
        } else if nSend < nToSend {
          nSended := nSended + nSend;
        } else {
          break;
        }
        if nSend == nToSend {
          break;
        }
      }
      return nSend == nToSend;
    }
  }

  /** v is a client in the middle of a SendAll of buf, which it was as `was` before. */
  predicate Sending(was: View, buf: string, done: nat, v: View) {
    && done <= |buf| && v == View(was.offline, was.wire + buf[..done], was.replies, v.answers)
    && Taken(was.answers, |buf|) == done + Taken(v.answers, |buf| - done)
    && Left(was.answers, |buf|) == Left(v.answers, |buf| - done)
  }

  lemma SendStarts(v: View, buf: string)
    ensures Sending(v, buf, 0, v) && (buf == "" ==> AfterSend(v, buf) == v && Taken(v.answers, 0) == 0)
  {
    assert v.wire + buf[..0] == v.wire;
  }

  // What a client is after one more send, of data.
  function AfterOne(v: View, data: string): View {
    var r := Answer(v.answers, |data|);
    v.(wire := v.wire + data[..if r > 0 then r else 0], answers := Tail(v.answers))
  }

  lemma OneMore(was: View, buf: string, done: nat, v: View)
    requires Sending(was, buf, done, v)
    ensures var r := Answer(v.answers, |buf| - done);
      AfterOne(v, buf[done..]) ==
      View(was.offline, was.wire + buf[..done + if r > 0 then r else 0], was.replies, Tail(v.answers))
  {
    var r := Answer(v.answers, |buf| - done);
    var k := if r > 0 then r else 0;
    assert was.wire + buf[..done] + buf[done..][..k] == was.wire + buf[..done + k];
    hide Taken, Left;
  }

  lemma SendEnds(was: View, buf: string, done: nat, v: View)
    requires Sending(was, buf, done, v) && done < |buf|
    ensures var n := |buf| - done; var r := Answer(v.answers, n); var v' := AfterOne(v, buf[done..]);
      && (r <= 0 ==> Taken(was.answers, |buf|) < |buf| && v'.(offline := true) == AfterSend(was, buf))
      && (r == n ==> Taken(was.answers, |buf|) == |buf| && v' == AfterSend(was, buf))
  {
    var n := |buf| - done;
    var r := Answer(v.answers, n);
    OneMore(was, buf, done, v);
    TakenStep(v.answers, n);
    hide Taken, Left, Answer, AfterOne, Tail;
    if r <= 0 {
      assert Taken(was.answers, |buf|) == done;
    } else if r == n {
      assert Taken(was.answers, |buf|) == |buf|;
    }
  }

  lemma SendGoesOn(was: View, buf: string, done: nat, v: View)
    requires Sending(was, buf, done, v) && done < |buf|
    ensures var n := |buf| - done; var r := Answer(v.answers, n);
      0 < r < n ==> Sending(was, buf, done + r, AfterOne(v, buf[done..]))
  {
    var n := |buf| - done;
    var r := Answer(v.answers, n);
    OneMore(was, buf, done, v);
    TakenStep(v.answers, n);
    hide Taken, Left, Answer, AfterOne, Tail;
    assert n - r == |buf| - (done + r);
  }

  lemma TakenStep(answers: seq<int>, n: nat)
    requires n > 0
    ensures var r := Answer(answers, n);
      && r <= n
      && (r <= 0 ==> Taken(answers, n) == 0 && Left(answers, n) == Tail(answers))
      && (r == n ==> Taken(answers, n) == n && Left(answers, n) == Tail(answers))
      && (0 < r < n ==> Taken(answers, n) == r + Taken(Tail(answers), n - r)
                        && Left(answers, n) == Left(Tail(answers), n - r))
  {
  }

  // ------------------------------------------------------ what gets through

  function Sum(answers: seq<int>): int {
    if answers == [] then 0 else answers[0] + Sum(answers[1..])
  }

  /** No failure among them. */
  predicate Positive(answers: seq<int>) {
    forall i | 0 <= i < |answers| :: answers[i] > 0
  }

  /** What gets through is all of it, or as much as the answers before the first
      failure add up to, if that is less. */
  lemma {:induction false} TakenMeaning(answers: seq<int>, n: nat, k: nat)
    requires k <= |answers| && Positive(answers[..k]) && (k < |answers| ==> answers[k] <= 0)
    ensures Taken(answers, n) == if k == |answers| || Sum(answers[..k]) >= n then n else Sum(answers[..k])
    decreases k
  {
    if k > 0 {
      var r := Answer(answers, n);
      assert answers[..k][0] == answers[0] && answers[..k][1..] == answers[1..][..k - 1];
      if answers[0] < n {
        TakenMeaning(answers[1..], n - r, k - 1);
      } else {
        SumPositive(answers[1..][..k - 1]);
      }
    }
  }

  lemma {:induction false} SumPositive(answers: seq<int>)
    requires Positive(answers)
    ensures Sum(answers) >= 0
  {
    if answers != [] { SumPositive(answers[1..]); }
  }

  /** The answers that a SendAll of n bytes uses: if it succeeds, no failure, and
      just as many as it takes to add up to n; otherwise all up to the first failure. */
  lemma {:induction false} UsedMeaning(answers: seq<int>, n: nat) returns (used: nat)
    ensures used <= |answers| && Left(answers, n) == answers[used..]
    ensures Taken(answers, n) == n <==> Positive(answers[..used])
    ensures Taken(answers, n) < n ==> used > 0 && answers[used - 1] <= 0 && Positive(answers[..used - 1])
    ensures used > 0 ==> Sum(answers[..used - 1]) < n
    ensures Taken(answers, n) == n && used < |answers| ==> Sum(answers[..used]) >= n
    decreases n
  {
    var r := Answer(answers, n);
    if n == 0 || answers == [] {
      used := 0;
    } else if r <= 0 {
      used := 1;
    } else {
      used := UsedMeaning(answers[1..], n - r);
      assert answers[..used + 1][1..] == answers[1..][..used];
      assert used > 0 ==> answers[..used][1..] == answers[1..][..used - 1];
      used := used + 1;
    }
  }

  // -------------------------------------------------------- broadcasts

  /** What one broadcast does to a client.  An offline client is passed over, but
      only if nobody else holds a reference to it. */
  function Deliver(v: View, shared: bool, msg: string): View {
    if v.offline && !shared then v
    else AfterSend(v, msg).(replies := if Taken(v.answers, |msg|) == |msg| then v.replies + 1 else v.replies)
  }

  /** Where the k-th answer of the socket is its first failure, or there is none: the
      client gets the whole message if what comes before adds up to it, and its heartbeat is told;
      otherwise it gets so much and is offline from then on. */
  lemma DeliverMeaning(v: View, shared: bool, msg: string, k: nat)
    requires k <= |v.answers| && Positive(v.answers[..k]) && (k < |v.answers| ==> v.answers[k] <= 0)
    requires !v.offline || shared
    ensures var all := k == |v.answers| || Sum(v.answers[..k]) >= |msg|; var v' := Deliver(v, shared, msg);
      && (all ==> v'.wire == v.wire + msg && v'.replies == v.replies + 1 && v'.offline == v.offline)
      && (!all ==> 0 <= Sum(v.answers[..k]) < |msg| && v'.wire == v.wire + msg[..Sum(v.answers[..k])]
                   && v'.replies == v.replies && v'.offline)
  {
    TakenMeaning(v.answers, |msg|, k);
    SumPositive(v.answers[..k]);
    hide Taken, Left, Sum;
    assert msg[..|msg|] == msg;
  }

  /** One broadcast: the loop over m_vClient.  The clients in shared are held elsewhere too. */
  method Broadcast(clients: seq<Client>, shared: set<Client>, msg: string)
    requires forall i, j | 0 <= i < j < |clients| :: clients[i] != clients[j]
    modifies set c | c in clients
    ensures forall i | 0 <= i < |clients| ::
      clients[i].Value() == Deliver(old(clients[i].Value()), clients[i] in shared, msg)
  {
    hide Deliver;
    var next := 0;
    while next < |clients|
      invariant 0 <= next <= |clients|
      invariant forall i | 0 <= i < next ::
        clients[i].Value() == Deliver(old(clients[i].Value()), clients[i] in shared, msg)
      invariant forall i | next <= i < |clients| :: clients[i].Value() == old(clients[i].Value())
    {
      SendTo(clients[next], clients[next] in shared, msg);
      next := next + 1;
    }
  }

  method SendTo(client: Client, shared: bool, msg: string)
    modifies client
    ensures client.Value() == Deliver(old(client.Value()), shared, msg)
  {
    if client.Offline && !shared {
      return;
    }
    hide AfterSend, Taken;
    var all := client.SendAll(msg);
    if all {
      client.TriggerGetReplyEvent();
    }
  }

  // -------------------------------------------------------- whole runs

  function Concat(msgs: seq<string>): string {
    if msgs == [] then "" else Concat(msgs[..|msgs| - 1]) + msgs[|msgs| - 1]
  }

  /** The client after broadcasting msgs, where shared[i] tells whether it was held
      elsewhere at the i-th. */
  function Deliveries(v: View, shared: seq<bool>, msgs: seq<string>): View
    requires |shared| == |msgs|
    decreases |msgs|
  {
    if msgs == [] then v
    else
      var n := |msgs| - 1;
      Deliver(Deliveries(v, shared[..n], msgs[..n]), shared[n], msgs[n])
  }

  lemma ConcatLast(msgs: seq<string>)
    requires msgs != []
    ensures Concat(msgs) == Concat(msgs[..|msgs| - 1]) + msgs[|msgs| - 1]
  {
  }

  lemma OneDelivery(u: View, shared: bool, msg: string)
    ensures var v' := Deliver(u, shared, msg);
      && u.wire <= v'.wire <= u.wire + msg && u.replies <= v'.replies <= u.replies + 1
      && (u.offline ==> v'.offline) && (u.offline && !shared ==> v' == u)
      && (!v'.offline ==> !u.offline && v'.wire == u.wire + msg && v'.replies == u.replies + 1)
  {
  }

  // From a to b within x, and then on to c within m, or not at all.
  lemma Onwards(a: string, b: string, c: string, x: string, m: string)
    requires a <= b <= a + x && b <= c <= b + m && (c == b || b == a + x)
    ensures a <= c <= a + (x + m)
  {
    assert a + x + m == a + (x + m);
  }

  /** The bytes that a client owned by nobody else receives are a prefix of all
      that is broadcast, all of it as long as the client is online; and once it
      is offline nothing more is sent.  Who owns it at the first broadcast does
      not matter if it is online then. */
  lemma {:induction false} PrefixDelivery(v: View, shared: seq<bool>, msgs: seq<string>)
    requires |shared| == |msgs|
    requires forall i | 0 <= i < |shared| && shared[i] :: i == 0 && !v.offline
    ensures var v' := Deliveries(v, shared, msgs);
      && (v.offline ==> v' == v)
      && v.wire <= v'.wire <= v.wire + Concat(msgs)
      && (!v'.offline ==> v'.wire == v.wire + Concat(msgs) && v'.replies == v.replies + |msgs|)
      && v.replies <= v'.replies <= v.replies + |msgs|
    decreases |msgs|
  {
    if msgs != [] {
      var n := |msgs| - 1;
      var u := Deliveries(v, shared[..n], msgs[..n]);
      var v' := Deliveries(v, shared, msgs);
      PrefixDelivery(v, shared[..n], msgs[..n]);
      OneDelivery(u, shared[n], msgs[n]);
      ConcatLast(msgs);
      hide Deliver, Deliveries, Concat;
      var x := Concat(msgs[..n]);
      assert u.offline ==> v'.wire == u.wire;
      Onwards(v.wire, u.wire, v'.wire, x, msgs[n]);
      assert v.wire + x + msgs[n] == v.wire + (x + msgs[n]);
    }
  }

  /** Which answers of the socket the client has used up, when nobody else holds it
      but at the first broadcast: it is offline then if and only if there is a failure among them. */
  lemma {:induction false} OfflineIff(v: View, shared: seq<bool>, msgs: seq<string>) returns (used: nat)
    requires |shared| == |msgs| && !v.offline
    requires forall i | 0 <= i < |shared| && shared[i] :: i == 0
    ensures var v' := Deliveries(v, shared, msgs);
      && used <= |v.answers| && v'.answers == v.answers[used..]
      && (v'.offline <==> !Positive(v.answers[..used]))
    decreases |msgs|
  {
    used := 0;
    if msgs != [] {
      var n := |msgs| - 1;
      var before := OfflineIff(v, shared[..n], msgs[..n]);
      used := before;
      var u := Deliveries(v, shared[..n], msgs[..n]);
      if !u.offline {
        var more := UsedMeaning(u.answers, |msgs[n]|);
        used := before + more;
        hide Taken, Left;
        PositiveJoin(v.answers, before, more);
      }
    }
  }

  lemma PositiveJoin(answers: seq<int>, k: nat, more: nat)
    requires k + more <= |answers|
    ensures answers[k..][more..] == answers[k + more..]
    ensures Positive(answers[..k]) && Positive(answers[k..][..more]) <==> Positive(answers[..k + more])
  {
    var first, second, both := answers[..k], answers[k..][..more], answers[..k + more];
    if Positive(both) {
      forall i | 0 <= i < more ensures second[i] > 0 { assert both[k + i] > 0; }
      forall i | 0 <= i < k ensures first[i] > 0 { assert both[i] > 0; }
    }
    if Positive(first) && Positive(second) {
      forall i | 0 <= i < k + more ensures both[i] > 0 {
        if i < k { assert first[i] > 0; } else { assert second[i - k] > 0; }
      }
    }
  }

  /** A client whose sends never fail stays online and gets everything, in however
      many pieces, and whoever else holds it. */
  lemma {:induction false} NeverFails(v: View, shared: seq<bool>, msgs: seq<string>)
    requires |shared| == |msgs| && !v.offline && Positive(v.answers)
    ensures var v' := Deliveries(v, shared, msgs);
      && !v'.offline && Positive(v'.answers)
      && v'.wire == v.wire + Concat(msgs) && v'.replies == v.replies + |msgs|
    decreases |msgs|
  {
    if msgs != [] {
      var n := |msgs| - 1;
      NeverFails(v, shared[..n], msgs[..n]);
      var u := Deliveries(v, shared[..n], msgs[..n]);
      TakenAll(u.answers, |msgs[n]|);
      ConcatLast(msgs);
      hide Taken, Left, Concat;
      assert msgs[n][..|msgs[n]|] == msgs[n];
      assert v.wire + Concat(msgs[..n]) + msgs[n] == v.wire + (Concat(msgs[..n]) + msgs[n]);
    }
  }

  lemma TakenAll(answers: seq<int>, n: nat)
    requires Positive(answers)
    ensures Taken(answers, n) == n && Positive(Left(answers, n))
  {
    assert answers[..|answers|] == answers;
    TakenMeaning(answers, n, |answers|);
    var used := UsedMeaning(answers, n);
  }

  /** Nothing puts a client online again, and nothing that it has been sent is taken back. */
  lemma {:induction false} OfflineForever(v: View, shared: seq<bool>, msgs: seq<string>, k: nat)
    requires |shared| == |msgs| && k <= |msgs|
    ensures var u, v' := Deliveries(v, shared[..k], msgs[..k]), Deliveries(v, shared, msgs);
      u.wire <= v'.wire && (u.offline ==> v'.offline)
    decreases |msgs|
  {
    if k < |msgs| {
      var n := |msgs| - 1;
      assert shared[..n][..k] == shared[..k] && msgs[..n][..k] == msgs[..k];
      OfflineForever(v, shared[..n], msgs[..n], k);
      OneDelivery(Deliveries(v, shared[..n], msgs[..n]), shared[n], msgs[n]);
      hide Deliver;
    } else {
      assert shared[..k] == shared && msgs[..k] == msgs;
    }
  }

  /** A client that has just been accepted. */
  function Joined(answers: seq<int>): View {
    View(false, "", 0, answers)
  }
}
