/** ARSTQueueDAO::Run: drop what was broadcast a short while ago, broadcast the rest. */
module QueueNode {
  import opened Strtok
  import opened Delivery

  const QueueLocalSize := 1000
  const MergeCount := 1
  const PricePos := 3
  const VolumePos := 4
  const EpochPos := 8

  /** What GetMessage brings: a text, nothing, or an error. */
  datatype Reception = Message(text: string) | Nothing | Failure

  /** The token at position i after the first one. */
  function Field(tokens: seq<string>, i: nat): string {
    if i < |tokens| then tokens[i] else ""
  }

  function KeyOf(tokens: seq<string>): string {
    Field(tokens, PricePos) + Field(tokens, VolumePos) + Field(tokens, EpochPos)
  }

  /** Price, volume and time of a quote, run together. */
  function Key(text: string): string {
    KeyOf(Tokens(text))
  }

  function Keys(texts: seq<string>): seq<string> {
    seq(|texts|, i requires 0 <= i < |texts| => Key(texts[i]))
  }

  function Trim(window: seq<string>): seq<string> {
    if |window| > 750 then Trim(window[250..]) else window
  }

  /** Trimming keeps the latest entries: all of up to 750, and otherwise, in steps
      of 250, between 501 and 750. */
  lemma {:induction false} TrimMeaning(window: seq<string>)
    ensures |Trim(window)| <= |window| && Trim(window) == window[|window| - |Trim(window)|..]
    ensures |Trim(window)| == if |window| <= 750 then |window| else 501 + (|window| - 751) % 250
    decreases |window|
  {
    if |window| > 750 {
      TrimMeaning(window[250..]);
      assert window[250..][|window| - 250 - |Trim(window)|..] == window[|window| - |Trim(window)|..];
    }
  }

  /** The window and the broadcasts after some texts. */
  datatype History = History(window: seq<string>, broadcasts: seq<string>)

  function Feed(h: History, text: string): History {
    if Key(text) in h.window then h.(window := Trim(h.window))
    else History(h.window + [Key(text)], h.broadcasts + [text])
  }

  function Feeds(h: History, texts: seq<string>): History
    decreases |texts|
  {
    if texts == [] then h else Feed(Feeds(h, texts[..|texts| - 1]), texts[|texts| - 1])
  }

  /** The texts received before the first error. */
  function Heard(rs: seq<Reception>): seq<string> {
    if rs == [] || rs[0].Failure? then []
    else (if rs[0].Message? then [rs[0].text] else []) + Heard(rs[1..])
  }

  /** Nothing after an error is heard; before it, messages are heard in order, and
      nothing else. */
  lemma {:induction false} HeardMeaning(rs: seq<Reception>, more: seq<Reception>, text: string)
    requires Failure !in rs
    ensures Heard([]) == [] && Heard(rs + [Failure] + more) == Heard(rs)
    ensures Heard(rs + [Message(text)]) == Heard(rs) + [text] && Heard(rs + [Nothing]) == Heard(rs)
  {
    if rs != [] {
      HeardMeaning(rs[1..], more, text);
      HeardFirst(rs, [Failure] + more);
      HeardFirst(rs, [Message(text)]);
      HeardFirst(rs, [Nothing]);
      hide Heard;
      assert rs + [Failure] + more == rs + ([Failure] + more);
      assert rs[1..] + [Failure] + more == rs[1..] + ([Failure] + more);
    } else {
      HeardNow(more, text);
      hide Heard;
      assert rs + [Failure] + more == [Failure] + more;
    }
  }

  lemma HeardFirst(rs: seq<Reception>, tail: seq<Reception>)
    requires rs != [] && !rs[0].Failure?
    ensures Heard(rs + tail) == (if rs[0].Message? then [rs[0].text] else []) + Heard(rs[1..] + tail)
    ensures Heard(rs) == (if rs[0].Message? then [rs[0].text] else []) + Heard(rs[1..])
  {
    assert (rs + tail)[0] == rs[0] && (rs + tail)[1..] == rs[1..] + tail;
  }

  lemma HeardNow(more: seq<Reception>, text: string)
    ensures Heard([]) == [] && Heard([Failure] + more) == []
    ensures Heard([Message(text)]) == [text] && Heard([Nothing]) == []
    ensures forall rs: seq<Reception> :: [] + rs == rs
  {
  }

  class QueueDAO {
    var QueueLocal: seq<string>
    var HashString: string
    var RecvBuf: string
    var ReadCount: nat

    /** Between two messages nothing is left over. */
    predicate Valid()
      reads this
    {
      HashString == "" && RecvBuf == "" && ReadCount == 0
    }

    constructor ()
      ensures Valid() && QueueLocal == []
    {
      QueueLocal, HashString, RecvBuf, ReadCount := [], "", "", 0;
    }

    /** The strtok loop. */
    method ExtractKey(text: string)
      requires HashString == ""
      modifies this`HashString
      ensures HashString == Key(text)
    {
      var found, token, pos := NextToken(text, 0);
      assert text[0..] == text;
      ghost var seen := if found then [token] else [];
      var index := 0;
      hide KeyOf, Tokens;
      KeyStarts(text, found, token, pos);
      while found
        invariant pos <= |text| && index <= |seen| && (found ==> |seen| == index + 1)
        invariant Tokens(text) == seen + if found then Tokens(text[pos..]) else []
        invariant HashString == KeyOf(seen)
        decreases found, |text| - pos
      {
        ghost var rest := Tokens(text[pos..]);
        found, token, pos := NextToken(text, pos);
        Carries(seen, rest, token, if found then Tokens(text[pos..]) else []);
        if found {
          index := index + 1;
          if index == PricePos || index == EpochPos || index == VolumePos {
            HashString := HashString + token;
          }
          NextField(seen, token);
          seen := seen + [token];
        }
      }
    }

    /** The window has swollen, and a duplicate has come. */
    method TrimLocal()
      modifies this`QueueLocal
      ensures QueueLocal == Trim(old(QueueLocal))
    {
      while |QueueLocal| > QueueLocalSize / 4 * 3
        invariant Trim(QueueLocal) == Trim(old(QueueLocal))
        decreases |QueueLocal|
      {
        QueueLocal := QueueLocal[250..];
      }
    }

    /** One turn of the loop, for a message: whether it is broadcast. */
    method Receive(text: string, clients: seq<Client>, shared: set<Client>) returns (sent: bool)
      requires Valid() && Distinct(clients)
      modifies this, set c | c in clients
      ensures Valid() && sent == (Key(text) !in old(QueueLocal))
      ensures QueueLocal == Feed(History(old(QueueLocal), []), text).window
      ensures sent ==> forall i | 0 <= i < |clients| ::
        clients[i].Value() == Deliver(old(clients[i].Value()), clients[i] in shared, text)
      ensures !sent ==> forall i | 0 <= i < |clients| :: clients[i].Value() == old(clients[i].Value())
    {
      hide Key;
      ExtractKey(text);
      sent := HashString !in QueueLocal;
      if sent {
        QueueLocal := QueueLocal + [HashString];
        RecvBuf := RecvBuf + text;
        ReadCount := ReadCount + 1;
        if ReadCount >= MergeCount {
          assert RecvBuf == text;
          Broadcast(clients, shared, RecvBuf);
          RecvBuf := "";
          ReadCount := 0;
        }
      } else {
        TrimLocal();
      }
      HashString := "";
    }

    /** ... within a run that started when the clients were as in views. */
    method Deal(text: string, shared: set<Client>, clients: seq<Client>, ghost views: seq<View>,
                broadcasts: seq<string>, held: seq<set<Client>>)
      returns (broadcasts': seq<string>, held': seq<set<Client>>)
      requires Valid() && Distinct(clients) && Linked(views, clients, held, broadcasts)
      modifies this, set c | c in clients
      ensures Valid() && Linked(views, clients, held', broadcasts')
      ensures History(QueueLocal, broadcasts') == Feed(History(old(QueueLocal), broadcasts), text)
    {
      hide Linked, Valid;
      ghost var us := Views(clients);
      assert LinkedAt(views, clients, held, broadcasts, us) by { LinkedNow(views, clients, held, broadcasts); }
      var sent := Receive(text, clients, shared);
      if sent {
        broadcasts', held' := broadcasts + [text], held + [shared];
        LinkGrows(views, clients, held, broadcasts, us, shared, text);
      } else {
        broadcasts', held' := broadcasts, held;
        LinkStays(views, clients, held, broadcasts, us);
      }
    }

    /** Run.  shared[i] are the clients that somebody else holds when the i-th
        message is dealt with; held lists these for the broadcasts made. */
    method Run(receptions: seq<Reception>, shared: seq<set<Client>>, clients: seq<Client>)
      returns (broadcasts: seq<string>, held: seq<set<Client>>, exited: bool)
      requires Valid() && |shared| == |receptions| && Distinct(clients)
      modifies this, set c | c in clients
      ensures Valid() && exited == (Failure in receptions)
      ensures History(QueueLocal, broadcasts) == Feeds(History(old(QueueLocal), []), Heard(receptions))
      ensures Linked(old(Views(clients)), clients, held, broadcasts)
    {
      broadcasts, held, exited := [], [], false;
      ghost var h, views := History(QueueLocal, []), Views(clients);
      ghost var heard: seq<string> := [];
      var next := 0;
      WholeRun(receptions, h);
      LinkStarts(clients);
      hide Feeds, Feed, Linked, Heard, Views;
      while next < |receptions|
        invariant 0 <= next <= |receptions| && Valid() && Failure !in receptions[..next]
        invariant Heard(receptions) == heard + Heard(receptions[next..])
        invariant History(QueueLocal, broadcasts) == Feeds(h, heard)
        invariant Linked(views, clients, held, broadcasts)
      {
        var r := receptions[next];
        HeardNext(receptions, next, heard, h);
        match r {
          case Failure =>
            return broadcasts, held, true;
          case Nothing =>
          case Message(text) =>
            broadcasts, held := Deal(text, shared[next], clients, views, broadcasts, held);
            heard := heard + [text];
        }
        next := next + 1;
      }
      RunEnds(receptions, next, heard);
    }
  }

  function Views(clients: seq<Client>): (vs: seq<View>)
    reads set c | c in clients
    ensures |vs| == |clients| && forall i | 0 <= i < |vs| :: vs[i] == clients[i].Value()
  {
    seq(|clients|, i requires 0 <= i < |clients| reads set c | c in clients => clients[i].Value())
  }

  predicate Distinct(clients: seq<Client>) {
    forall i, j | 0 <= i < j < |clients| :: clients[i] != clients[j]
  }

  /** At which broadcasts somebody else held the client. */
  function Flags(c: Client, held: seq<set<Client>>): seq<bool> {
    seq(|held|, k requires 0 <= k < |held| => c in held[k])
  }

  /** Since the clients were as in views, each has been sent the broadcasts one by one. */
  ghost predicate Linked(views: seq<View>, clients: seq<Client>, held: seq<set<Client>>, broadcasts: seq<string>)
    reads set c | c in clients
  {
    LinkedAt(views, clients, held, broadcasts, Views(clients))
  }

  ghost predicate LinkedAt(views: seq<View>, clients: seq<Client>, held: seq<set<Client>>, broadcasts: seq<string>,
                           us: seq<View>) {
    && |views| == |us| == |clients| && |held| == |broadcasts|
    && forall i | 0 <= i < |clients| :: us[i] == Deliveries(views[i], Flags(clients[i], held), broadcasts)
  }

  lemma LinkedNow(views: seq<View>, clients: seq<Client>, held: seq<set<Client>>, broadcasts: seq<string>)
    requires Linked(views, clients, held, broadcasts)
    ensures LinkedAt(views, clients, held, broadcasts, Views(clients))
  {
  }

  lemma LinkStarts(clients: seq<Client>)
    ensures Linked(Views(clients), clients, [], [])
  {
  }

  lemma LinkStays(views: seq<View>, clients: seq<Client>, held: seq<set<Client>>, broadcasts: seq<string>,
                  us: seq<View>)
    requires LinkedAt(views, clients, held, broadcasts, us)
    requires forall i | 0 <= i < |clients| :: clients[i].Value() == us[i]
    ensures Linked(views, clients, held, broadcasts)
  {
    assert Views(clients) == us;
  }

  lemma LinkGrows(views: seq<View>, clients: seq<Client>, held: seq<set<Client>>, broadcasts: seq<string>,
                  us: seq<View>,
                  shared: set<Client>, text: string)
    requires LinkedAt(views, clients, held, broadcasts, us)
    requires forall i | 0 <= i < |clients| :: clients[i].Value() == Deliver(us[i], clients[i] in shared, text)
    ensures Linked(views, clients, held + [shared], broadcasts + [text])
  {
    forall i | 0 <= i < |clients|
      ensures Views(clients)[i] == Deliveries(views[i], Flags(clients[i], held + [shared]), broadcasts + [text])
    {
      var n := |broadcasts|;
      var flags := Flags(clients[i], held + [shared]);
      assert flags[..n] == Flags(clients[i], held) && (broadcasts + [text])[..n] == broadcasts;
      assert flags[n] == (clients[i] in shared) && (broadcasts + [text])[n] == text;
    }
  }

  lemma WholeRun(rs: seq<Reception>, h: History)
    ensures rs[..0] == [] && Heard(rs) == [] + Heard(rs[0..]) && Feeds(h, []) == h
  {
    assert rs[0..] == rs;
  }

  lemma HeardNext(rs: seq<Reception>, next: nat, heard: seq<string>, h: History)
    requires next < |rs| && Heard(rs) == heard + Heard(rs[next..]) && Failure !in rs[..next]
    ensures rs[next].Failure? ==> Heard(rs) == heard
    ensures !rs[next].Failure? ==> Failure !in rs[..next + 1]
    ensures rs[next].Nothing? ==> Heard(rs) == heard + Heard(rs[next + 1..])
    ensures rs[next].Message? ==> var text := rs[next].text;
      Heard(rs) == heard + [text] + Heard(rs[next + 1..]) && Feeds(h, heard + [text]) == Feed(Feeds(h, heard), text)
  {
    assert rs[next..][1..] == rs[next + 1..] && rs[..next + 1] == rs[..next] + [rs[next]];
    if rs[next].Message? { assert (heard + [rs[next].text])[..|heard|] == heard; }
  }

  lemma RunEnds(rs: seq<Reception>, next: nat, heard: seq<string>)
    requires next == |rs| && Heard(rs) == heard + Heard(rs[next..])
    ensures rs[..next] == rs && Heard(rs) == heard
  {
    assert rs[next..] == [];
  }

  lemma KeyStarts(text: string, found: bool, token: string, pos: nat)
    requires pos <= |text| && Tokens(text) == if found then [token] + Tokens(text[pos..]) else []
    ensures KeyOf(if found then [token] else []) == ""
    ensures Tokens(text) == (if found then [token] else []) + if found then Tokens(text[pos..]) else []
  {
  }

  lemma Carries(seen: seq<string>, rest: seq<string>, token: string, more: seq<string>)
    ensures rest == [token] + more ==> seen + rest == seen + [token] + more
  {
  }

  lemma NextField(seen: seq<string>, token: string)
    ensures KeyOf(seen + [token]) ==
      KeyOf(seen) + if |seen| == PricePos || |seen| == EpochPos || |seen| == VolumePos then token else ""
  {
  }

  // --------------------------------------------------- the window and history

  const Fresh := History([], [])

  predicate NoRepeats(w: seq<string>) {
    forall i, j | 0 <= i < j < |w| :: w[i] != w[j]
  }

  /** w is the latest entries of all, without repetition, and at least 501 of
      them if any are missing. */
  predicate Latest(w: seq<string>, all: seq<string>) {
    && |w| <= |all| && w == all[|all| - |w|..] && NoRepeats(w)
    && (|w| < |all| ==> |w| >= 501)
  }

  /** The window is the keys of the latest broadcasts. */
  predicate Recent(h: History) {
    Latest(h.window, Keys(h.broadcasts))
  }

  lemma KeysAppend(texts: seq<string>, text: string)
    ensures Keys(texts + [text]) == Keys(texts) + [Key(text)]
  {
  }

  lemma LatestPush(w: seq<string>, all: seq<string>, key: string)
    requires Latest(w, all) && key !in w
    ensures Latest(w + [key], all + [key])
  {
    var from := |all| - |w|;
    assert (all + [key])[from..] == all[from..] + [key];
  }

  lemma LatestDrop(w: seq<string>, all: seq<string>, v: seq<string>)
    requires Latest(w, all) && |v| <= |w| && v == w[|w| - |v|..] && (v == w || |v| >= 501)
    ensures Latest(v, all)
  {
    var from := |all| - |w|;
    assert all[from..][|w| - |v|..] == all[from + |w| - |v|..];
  }

  lemma FeedRecent(h: History, text: string)
    requires Recent(h)
    ensures Recent(Feed(h, text))
  {
    hide Latest, Key, Keys;
    if Key(text) in h.window {
      TrimMeaning(h.window);
      LatestDrop(h.window, Keys(h.broadcasts), Trim(h.window));
    } else {
      KeysAppend(h.broadcasts, text);
      LatestPush(h.window, Keys(h.broadcasts), Key(text));
    }
  }

  lemma {:induction false} WindowIsRecent(texts: seq<string>)
    ensures Recent(Feeds(Fresh, texts))
    decreases |texts|
  {
    if texts != [] {
      hide Recent;
      WindowIsRecent(texts[..|texts| - 1]);
      FeedRecent(Feeds(Fresh, texts[..|texts| - 1]), texts[|texts| - 1]);
    } else {
      assert Keys([])[0..] == [];
    }
  }

  /** A text whose key has not been broadcast yet is always broadcast; one whose
      key is among the last 501 keys broadcast never is. */
  lemma Decision(texts: seq<string>, text: string)
    ensures var h := Feeds(Fresh, texts); var sent := Feeds(Fresh, texts + [text]).broadcasts == h.broadcasts + [text];
      && (sent <==> Key(text) !in h.window)
      && (!sent ==> Feeds(Fresh, texts + [text]).broadcasts == h.broadcasts)
      && (Key(text) !in Keys(h.broadcasts) ==> sent)
      && (forall i | 0 <= i < |h.broadcasts| && i >= |h.broadcasts| - 501 && Key(h.broadcasts[i]) == Key(text) :: !sent)
  {
    var h := Feeds(Fresh, texts);
    WindowIsRecent(texts);
    assert (texts + [text])[..|texts|] == texts;
    hide Feeds, Key;
    forall i | 0 <= i < |h.broadcasts| && i >= |h.broadcasts| - 501 && Key(h.broadcasts[i]) == Key(text)
      ensures Key(text) in h.window
    {
      var from := |h.broadcasts| - |h.window|;
      assert i >= from && h.window[i - from] == Keys(h.broadcasts)[i];
    }
  }

  /** Two broadcasts with the same key have at least 501 others strictly between them. */
  lemma {:induction false} RebroadcastDistance(texts: seq<string>, i: nat, j: nat)
    requires i < j < |Feeds(Fresh, texts).broadcasts|
    requires Key(Feeds(Fresh, texts).broadcasts[i]) == Key(Feeds(Fresh, texts).broadcasts[j])
    ensures j - i - 1 >= 501
    decreases |texts|
  {
    if texts != [] {
      var before, text := texts[..|texts| - 1], texts[|texts| - 1];
      var h := Feeds(Fresh, before);
      if j < |h.broadcasts| {
        RebroadcastDistance(before, i, j);
      } else {
        Decision(before, text);
        assert texts == before + [text];
      }
    }
  }

  predicate Subsequence(xs: seq<string>, ys: seq<string>) {
    xs == [] || (ys != [] &&
      ((xs[|xs| - 1] == ys[|ys| - 1] && Subsequence(xs[..|xs| - 1], ys[..|ys| - 1]))
       || Subsequence(xs, ys[..|ys| - 1])))
  }

  /** What is broadcast comes from what is received, in order. */
  lemma {:induction false} InOrder(texts: seq<string>)
    ensures Subsequence(Feeds(Fresh, texts).broadcasts, texts)
    decreases |texts|
  {
    if texts != [] {
      var n := |texts| - 1;
      var h := Feeds(Fresh, texts[..n]);
      InOrder(texts[..n]);
      assert (h.broadcasts + [texts[n]])[..|h.broadcasts|] == h.broadcasts;
    }
  }

  /** A key leaves the window only when a duplicate comes while more than 750 are in it. */
  lemma KeyLeaves(h: History, text: string, key: string)
    requires key in h.window && key !in Feed(h, text).window
    ensures Key(text) in h.window && |h.window| > 750
  {
    hide Key;
    TrimMeaning(h.window);
  }

  function KeySet(texts: seq<string>): set<string> {
    set key | key in Keys(texts)
  }

  lemma {:induction false} SizeOf(w: seq<string>)
    requires NoRepeats(w)
    ensures |set key | key in w| == |w|
  {
    if w != [] {
      var rest := w[1..];
      SizeOf(rest);
      assert (set key | key in w) == (set key | key in rest) + {w[0]};
    }
  }

  lemma KeySetGrows(texts: seq<string>, text: string)
    ensures KeySet(texts + [text]) == KeySet(texts) + {Key(text)}
  {
    KeysAppend(texts, text);
    hide Key, Keys;
  }

  lemma SizeWithin(a: set<string>, b: set<string>)
    requires a <= b
    ensures |a| <= |b|
  {
    assert b == a + (b - a);
  }

  /** As long as at most 750 different keys have come in nothing is forgotten, and
      each of them has been broadcast exactly once. */
  lemma {:induction false} EachOnce(texts: seq<string>)
    requires |KeySet(texts)| <= 750
    ensures var h := Feeds(Fresh, texts);
      h.window == Keys(h.broadcasts) && NoRepeats(Keys(h.broadcasts)) && KeySet(h.broadcasts) == KeySet(texts)
    decreases |texts|
  {
    if texts != [] {
      var n := |texts| - 1;
      assert texts == texts[..n] + [texts[n]];
      KeySetGrows(texts[..n], texts[n]);
      SizeWithin(KeySet(texts[..n]), KeySet(texts));
      EachOnce(texts[..n]);
      OnceMore(Feeds(Fresh, texts[..n]), texts[n], KeySet(texts[..n]));
    }
  }

  lemma OnceMore(h: History, text: string, keys: set<string>)
    requires h.window == Keys(h.broadcasts) && NoRepeats(h.window) && KeySet(h.broadcasts) == keys
    requires |keys + {Key(text)}| <= 750
    ensures var h' := Feed(h, text);
      && h'.window == Keys(h'.broadcasts) && NoRepeats(h'.window) && KeySet(h'.broadcasts) == keys + {Key(text)}
  {
    SizeOf(h.window);
    SizeWithin(keys, keys + {Key(text)});
    KeysAppend(h.broadcasts, text);
    KeySetGrows(h.broadcasts, text);
    hide Key, Keys;
  }

  /** No key is broadcast twice, whatever comes in with at most n different keys. */
  ghost predicate NeverTwice(n: nat) {
    forall texts | |KeySet(texts)| <= n :: NoRepeats(Keys(Feeds(Fresh, texts).broadcasts))
  }

  /** 750 keys are safe, and 751 are not. */
  lemma NeverTwiceIff(n: nat)
    ensures NeverTwice(n) <==> n <= 750
  {
    if n <= 750 {
      forall texts | |KeySet(texts)| <= n ensures NoRepeats(Keys(Feeds(Fresh, texts).broadcasts)) { EachOnce(texts); }
    } else {
      var texts := DistanceAttained();
      var b := Feeds(Fresh, texts).broadcasts;
      hide Key, Feeds;
      assert Keys(b)[249] == Keys(b)[751];
      FewKeys(texts);
    }
  }

  lemma FewKeys(texts: seq<string>)
    requires forall t | t in texts :: t in Firsts(751)
    ensures |KeySet(texts)| <= 751
  {
    hide Key, Nth;
    var all := Firsts(751);
    forall i, j | 0 <= i < j < 751 ensures Keys(all)[i] != Keys(all)[j] {
      NthKey(i);
      NthKey(j);
    }
    SizeOf(Keys(all));
    forall key | key in KeySet(texts) ensures key in KeySet(all) {
      var i :| 0 <= i < |texts| && Keys(texts)[i] == key;
      assert texts[i] in texts;
      var j :| 0 <= j < |all| && all[j] == texts[i];
      assert Keys(all)[j] == key;
    }
    SizeWithin(KeySet(texts), KeySet(all));
  }

  // ------------------------------------------------------------- the keys

  /** The lengths of price, volume and time. */
  datatype Lengths = Lengths(price: nat, volume: nat, epoch: nat)

  predicate Measures(l: Lengths, t: seq<string>) {
    |Field(t, PricePos)| == l.price && |Field(t, VolumePos)| == l.volume && |Field(t, EpochPos)| == l.epoch
  }

  predicate SameFields(t: seq<string>, u: seq<string>) {
    && Field(t, PricePos) == Field(u, PricePos)
    && Field(t, VolumePos) == Field(u, VolumePos)
    && Field(t, EpochPos) == Field(u, EpochPos)
  }

  /** Keys tell quotes of these lengths apart. */
  ghost predicate Tells(l: Lengths, m: Lengths) {
    forall t, u | Measures(l, t) && Measures(m, u) :: KeyOf(t) == KeyOf(u) ==> SameFields(t, u)
  }

  lemma KeysSplit(t: seq<string>, u: seq<string>)
    requires |Field(t, PricePos)| == |Field(u, PricePos)| && |Field(t, VolumePos)| == |Field(u, VolumePos)|
    ensures KeyOf(t) == KeyOf(u) <==> SameFields(t, u)
  {
    var p, v := |Field(t, PricePos)|, |Field(t, VolumePos)|;
    if KeyOf(t) == KeyOf(u) {
      assert KeyOf(t)[..p] == Field(t, PricePos) && KeyOf(u)[..p] == Field(u, PricePos);
      assert KeyOf(t)[p..p + v] == Field(t, VolumePos) && KeyOf(u)[p..p + v] == Field(u, VolumePos);
      assert KeyOf(t)[p + v..] == Field(t, EpochPos) && KeyOf(u)[p + v..] == Field(u, EpochPos);
    }
  }

  function Ones(n: nat): string {
    seq(n, _ => '1')
  }

  function OnesQuote(l: Lengths): seq<string> {
    Quote(Ones(l.price), Ones(l.volume), Ones(l.epoch))
  }

  lemma OnesKey(l: Lengths)
    ensures Measures(l, OnesQuote(l)) && KeyOf(OnesQuote(l)) == Ones(l.price + l.volume + l.epoch)
  {
  }

  /** Keys tell two quotes apart if and only if their prices are of the same
      length and so are their volumes, or their keys are not even of the same length. */
  lemma KeysTell(l: Lengths, m: Lengths)
    ensures Tells(l, m) <==>
      (l.price == m.price && l.volume == m.volume) || l.price + l.volume + l.epoch != m.price + m.volume + m.epoch
  {
    if l.price == m.price && l.volume == m.volume {
      forall t, u | Measures(l, t) && Measures(m, u) ensures KeyOf(t) == KeyOf(u) ==> SameFields(t, u) {
        KeysSplit(t, u);
      }
    } else if l.price + l.volume + l.epoch == m.price + m.volume + m.epoch {
      OnesKey(l);
      OnesKey(m);
      hide KeyOf;
      assert !SameFields(OnesQuote(l), OnesQuote(m));
      assert !Tells(l, m);
    }
  }

  function Quote(price: string, volume: string, epoch: string): seq<string> {
    ["q", "id", "sym", price, volume, "tc", "a", "b", epoch]
  }

  lemma QuoteKey(price: string, volume: string, epoch: string)
    requires Plain(price) && Plain(volume) && Plain(epoch)
    ensures Key(Join(Quote(price, volume, epoch))) == price + volume + epoch
    ensures Tokens(Join(Quote(price, volume, epoch))) == Quote(price, volume, epoch)
  {
    JoinTokens(Quote(price, volume, epoch));
    hide Join, Tokens;
  }

  lemma SecondDropped(t: string, u: string)
    requires Key(t) == Key(u)
    ensures Feeds(Fresh, [t, u]).broadcasts == [t]
  {
    hide Key;
    assert [t][..0] == [] && [t, u][..1] == [t];
    assert Feeds(Fresh, [t]) == Feed(Fresh, t);
    assert Feeds(Fresh, [t, u]) == Feed(Feed(Fresh, t), u);
  }

  /** For all other lengths there are two different messages with the same key:
      after the first, the second is dropped. */
  lemma KeysCollide(l: Lengths, m: Lengths) returns (t: string, u: string)
    requires l.price > 0 && l.volume > 0 && l.epoch > 0 && m.price > 0 && m.volume > 0 && m.epoch > 0
    requires !Tells(l, m)
    ensures Measures(l, Tokens(t)) && Measures(m, Tokens(u)) && !SameFields(Tokens(t), Tokens(u))
    ensures Key(t) == Key(u) && Feeds(Fresh, [t, u]).broadcasts == [t]
  {
    t, u := Join(OnesQuote(l)), Join(OnesQuote(m));
    KeysTell(l, m);
    OnesKey(l);
    OnesKey(m);
    QuoteKey(Ones(l.price), Ones(l.volume), Ones(l.epoch));
    QuoteKey(Ones(m.price), Ones(m.volume), Ones(m.epoch));
    assert !SameFields(OnesQuote(l), OnesQuote(m));
    SecondDropped(t, u);
    hide Join, Tokens, Feeds;
  }

  // ------------------------------------------- 501 cannot be improved

  /** A quote whose price has i + 1 digits. */
  function Nth(i: nat): string {
    Join(Quote(seq(i + 1, _ => '1'), "1", "1"))
  }

  function Firsts(n: nat): seq<string> {
    seq(n, i requires 0 <= i < n => Nth(i))
  }

  lemma NthKey(i: nat)
    ensures Key(Nth(i)) == seq(i + 1, _ => '1') + "1" + "1" && |Key(Nth(i))| == i + 3
  {
    QuoteKey(seq(i + 1, _ => '1'), "1", "1");
    hide Key;
  }

  lemma FreshKey(n: nat, m: nat)
    requires n <= m
    ensures Key(Nth(m)) !in Keys(Firsts(n))
  {
    hide Key, Nth;
    NthKey(m);
    forall i | 0 <= i < n ensures Keys(Firsts(n))[i] != Key(Nth(m)) { NthKey(i); }
  }

  lemma {:induction false} AllFresh(n: nat)
    ensures Feeds(Fresh, Firsts(n)) == History(Keys(Firsts(n)), Firsts(n))
  {
    hide Key, Nth;
    if n > 0 {
      AllFresh(n - 1);
      assert Firsts(n) == Firsts(n - 1) + [Nth(n - 1)];
      assert Firsts(n)[..n - 1] == Firsts(n - 1);
      FreshKey(n - 1, n - 1);
      KeysAppend(Firsts(n - 1), Nth(n - 1));
    }
  }

  lemma Feeding(h: History, texts: seq<string>, text: string)
    ensures Feeds(h, texts + [text]) == Feed(Feeds(h, texts), text)
  {
    assert (texts + [text])[..|texts|] == texts;
  }

  /** 751 different quotes, the last of them again, and then the 250th again: it
      is broadcast once more, with 501 broadcasts in between. */
  lemma DistanceAttained() returns (texts: seq<string>)
    ensures var b := Feeds(Fresh, texts).broadcasts; |b| == 752 && Key(b[249]) == Key(b[751]) && 751 - 249 - 1 == 501
    ensures forall t | t in texts :: t in Firsts(751)
  {
    hide Key, Nth, Feeds;
    var all := Firsts(751);
    AllFresh(751);
    var w := Keys(all);
    Feeding(Fresh, all, Nth(750));
    assert w[750] == Key(Nth(750));
    assert Trim(w) == w[250..];
    var h := Feeds(Fresh, all + [Nth(750)]);
    assert h == History(w[250..], all);
    texts := all + [Nth(750)] + [Nth(249)];
    Feeding(Fresh, all + [Nth(750)], Nth(249));
    NthKey(249);
    forall i | 250 <= i < 751 ensures w[i] != Key(Nth(249)) { NthKey(i); }
    assert Key(Nth(249)) !in w[250..];
    assert Feeds(Fresh, texts).broadcasts == all + [Nth(249)];
    assert all[249] == Nth(249);
  }
}
