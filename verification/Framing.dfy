/** ARSTServer::RecvAll and the loop of ARSTServer::Run that cuts the feed into lines. */
module Framing {
  import opened Records

  const BufferSize := 1024
  const Newline := '\n'
  const Nul := '\0'

  /** What one turn of RecvAll meets: no socket at all, some bytes (at most
      count of them, and no more than asked for), the end of the connection, or an error. */
  datatype Answer = Absent | Bytes(count: nat) | Closed | Error(code: int)

  /** The value that Recv returns when `feed` is still to come and n bytes are asked for. */
  function Received(a: Answer, feed: string, n: nat): (r: int)
    ensures r <= n && r <= |feed|
  {
    match a
    case Bytes(count) => if count <= n && count <= |feed| then count else if n <= |feed| then n else |feed|
    case Error(code) => if code < 0 then code else -1
    case _ => 0
  }

  /** How a call of RecvAll ends: its result, the bytes it got, and what is left. */
  datatype Receipt = Receipt(ok: bool, got: string, feed: string, answers: seq<Answer>)

  /** RecvAll with n bytes to go, when the last Recv returned `last`. */
  function Receive(feed: string, answers: seq<Answer>, n: nat, last: int): Receipt
    decreases n
  {
    if answers == [] then Receipt(0 == n, "", feed, [])
    else if answers[0].Absent? then Receipt(last == n, "", feed, answers[1..])
    else
      var r := Received(answers[0], feed, n);
      if r <= 0 then Receipt(r == n, "", feed, answers[1..])
      else if r == n then Receipt(true, feed[..r], feed[r..], answers[1..])
      else
        var rest := Receive(feed[r..], answers[1..], n - r, r);
        rest.(got := feed[..r] + rest.got)
  }

  datatype Status = Unset | Free | Inuse | Breakdown | Reconnecting

  method Copy(text: string, buf: array<char>, at: nat)
    requires at + |text| <= buf.Length
    modifies buf
    ensures buf[..] == Overlaid(old(buf[..]), at, text)
  {
    var k := 0;
    while k < |text|
      invariant 0 <= k <= |text|
      invariant forall i | 0 <= i < buf.Length :: buf[i] == if at <= i < at + k then text[i - at] else old(buf[i])
    {
      buf[at + k] := text[k];
      k := k + 1;
    }
  }

  class Server {
    var Feed: string            // what the peer has still to send
    var Answers: seq<Answer>    // what the next turns of RecvAll meet; then the connection is closed
    var Status: Status
    var Replies: nat            // calls of TriggerGetReplyEvent

    constructor (feed: string, answers: seq<Answer>)
      ensures Feed == feed && Answers == answers && Status.Free? && Replies == 0
    {
      Feed, Answers, Status, Replies := feed, answers, Free, 0;
    }

    /** One Recv of at most n bytes into buf, at position at. */
    method Recv(answer: Answer, buf: array<char>, at: nat, n: nat) returns (r: int)
      requires at + n <= buf.Length
      modifies this`Feed, buf
      ensures r == Received(answer, old(Feed), n)
      ensures var k := if r > 0 then r else 0;
        Feed == old(Feed)[k..] && buf[..] == Overlaid(old(buf[..]), at, old(Feed)[..k])
    {
      r := Received(answer, Feed, n);
      if r > 0 {
        Copy(Feed[..r], buf, at);
        Feed := Feed[r..];
      }
    }

    /** One turn of RecvAll, with n bytes to go after got; present tells whether there was a socket. */
    method Turn(buf: array<char>, at: nat, done: nat, n: nat, last: int, ghost goal: Receipt, ghost was: string,
                ghost got: string)
      returns (present: bool, r: int, ghost more: string)
      requires done == |got| && at + done + n <= buf.Length == |was| && buf[..] == Overlaid(was, at, got)
      requires Answers != [] && Continues(goal, got, Feed, Answers, n, last)
      modifies this`Feed, this`Answers, buf
      ensures (present ==> r <= n) && |more| == (if present && r > 0 then r else 0)
      ensures buf[..] == Overlaid(was, at, got + more)
      ensures |Answers| < |old(Answers)| && (!present ==> r == last)
      ensures if !present || r <= 0 || r == n then goal == Receipt(r == n, got + more, Feed, Answers)
              else Continues(goal, got + more, Feed, Answers, n - r, r)
    {
      hide Receive, Received, Continues, Overlaid;
      ghost var feed, answers := Feed, Answers;
      var answer := Answers[0];
      Answers := Answers[1..];
      r := last;
      more := "";
      present := !answer.Absent?;
      if present {
        r := Recv(answer, buf, at + done, n);
        more := feed[..if r > 0 then r else 0];
      }
      OverlaidTwice(was, at, got, more);
      assert got + "" == got && feed[0..] == feed;
      TurnMeans(goal, got, feed, answers, n, last, r, more);
    }

    /** RecvAll into buf, at position at; got is what it puts there. */
    method RecvAll(buf: array<char>, at: nat, count: nat) returns (ok: bool, ghost got: string)
      requires at + count <= buf.Length
      modifies this`Feed, this`Answers, buf
      ensures Receipt(ok, got, Feed, Answers) == Receive(old(Feed), old(Answers), count, 0)
      ensures |got| <= count && buf[..] == Overlaid(old(buf[..]), at, got)
    {
      var nToRecv, nRecv, nRecved := count, 0, 0;
      got := "";
      ghost var goal, was := Receive(Feed, Answers, count, 0), buf[..];
      OverlaidNothing(was, at);
      assert Continues(goal, "", Feed, Answers, count, 0);
      hide Receive, Received, Continues, Overlaid;
      while true
        invariant 0 <= nRecv <= nToRecv && (nRecv > 0 ==> nRecv < nToRecv)
        invariant |got| == nRecved && nRecved + nToRecv - nRecv == count && buf[..] == Overlaid(was, at, got)
        invariant Continues(goal, got, Feed, Answers, nToRecv - nRecv, nRecv)
        decreases nToRecv - nRecv, |Answers|
      {
        nToRecv := nToRecv - nRecv;
        if Answers == [] {
          ContinuesStep(goal, got, Feed, Answers, nToRecv, nRecv);
          nRecv := 0;
          break;
        }
        var present;
        ghost var more;
        present, nRecv, more := Turn(buf, at, nRecved, nToRecv, nRecv, goal, was, got);
        got := got + more;
        if !present || nRecv <= 0 {
          break;
        }
        nRecved := nRecved + nRecv;
        if nRecv == nToRecv {
          break;
        }
      }
      ok := nRecv == nToRecv;
    }

    /** RecvAll of the next byte, after read. */
    method ReadByte(buf: array<char>, index: nat, ghost read: string) returns (ok: bool, ghost got: string)
      requires index == |read| < buf.Length == BufferSize && buf[..] == Overlaid(Zeros(BufferSize), 0, read)
      modifies this`Feed, this`Answers, buf
      ensures if ok then |got| == 1 && read + old(Arrived(Feed, Answers)) == read + got + Arrived(Feed, Answers)
                && |Answers| < |old(Answers)| && buf[index] == got[0]
                && (Plain(read + got) <==> Plain(read) && got[0] != Newline)
              else got == "" && old(Arrived(Feed, Answers)) == ""
      ensures index + |got| <= BufferSize && buf[..] == Overlaid(Zeros(BufferSize), 0, read + got)
    {
      hide Overlaid, Zeros, Arrived, Receive;
      OneByte(read, Feed, Answers);
      ok, got := RecvAll(buf, index, 1);
      OverlaidTwice(Zeros(BufferSize), 0, read, got);
      if ok {
        LastByte(Zeros(BufferSize), read, got);
        assert buf[..][index] == got[0];
      }
    }

    /** The inner loop of Run: fills a cleared buffer byte by byte up to a newline,
        a failure, or its end.  read is what it puts there. */
    method ReadPiece(buf: array<char>) returns (ok: bool, ghost read: string)
      requires buf.Length == BufferSize && buf[..] == Zeros(BufferSize)
      modifies this`Feed, this`Answers, this`Replies, buf
      ensures |read| <= BufferSize && buf[..] == Overlaid(Zeros(BufferSize), 0, read)
      ensures var all := old(Arrived(Feed, Answers));
        && (ok <==> Cut(all).Some?)
        && (if ok then |read| == Cut(all).value && all == read + Arrived(Feed, Answers) else all == read)
      ensures ok ==> |Answers| < |old(Answers)|
      ensures Replies == old(Replies) + NonNewlines(read)
    {
      read := "";
      ok := true;
      var index := 0;
      OverlaidNothing(buf[..], 0);
      ghost var all := Arrived(Feed, Answers);
      assert "" + all == all;
      hide Overlaid, Zeros, Arrived, Receive, Cut, NonNewlines, Plain;
      PlainCut("", "", all);
      while index < buf.Length
        invariant ok && index == |read| <= buf.Length && Plain(read) && all == read + Arrived(Feed, Answers)
        invariant buf[..] == Overlaid(Zeros(BufferSize), 0, read)
        invariant Replies == old(Replies) + index && |Answers| + index <= |old(Answers)|
      {
        ghost var got;
        ok, got := ReadByte(buf, index, read);
        PlainCut(read, got, all);
        read := read + got;
        if !ok || buf[index] == Newline {
          return;
        }
        Replies := Replies + 1;
        index := index + 1;
      }
      PlainCut(read, "", all);
      assert read + "" == read;
    }

    /** Run, from ssFree or ssInuse until the connection breaks down.  A message is
        what strlen makes of the buffer: None when it finds no end in it. */
    method Run() returns (messages: seq<Option<string>>)
      requires Status.Free? || Status.Inuse?
      modifies this
      ensures messages == Emitted(old(Arrived(Feed, Answers))) && Status.Breakdown?
      ensures Replies == old(Replies) + NonNewlines(old(Arrived(Feed, Answers)))
    {
      messages := [];
      var buf := new char[BufferSize];
      ghost var all, gone, before := Arrived(Feed, Answers), "", Replies;
      GoingStarts(all);
      hide Arrived, Emitted, NonNewlines, Going;
      var ok := true;
      while ok
        invariant ok ==> Going(all, gone, messages, Arrived(Feed, Answers))
        invariant !ok ==> messages == Emitted(all) && gone == all
        invariant Replies == before + NonNewlines(gone)
        decreases ok, |Answers|
      {
        ok, messages, gone := NextMessage(buf, messages, all, gone);
      }
      Status := Breakdown;
    }

    /** One turn of the loop of Run. */
    method NextMessage(buf: array<char>, sent: seq<Option<string>>, ghost all: string, ghost gone: string)
      returns (ok: bool, messages: seq<Option<string>>, ghost gone': string)
      requires buf.Length == BufferSize && Going(all, gone, sent, Arrived(Feed, Answers))
      modifies this`Feed, this`Answers, this`Replies, buf
      ensures if ok then Going(all, gone', messages, Arrived(Feed, Answers)) && |Answers| < |old(Answers)|
              else messages == Emitted(all) && gone' == all
      ensures Replies == old(Replies) + NonNewlines(gone') - NonNewlines(gone)
    {
      forall i | 0 <= i < buf.Length { buf[i] := Nul; }
      AllZeros(buf[..]);
      ghost var rest := Arrived(Feed, Answers);
      hide Arrived, Emitted, NonNewlines, Going, Overlaid, Zeros, CString;
      ghost var read;
      ok, read := ReadPiece(buf);
      CountMore(gone, read);
      GoingOn(all, gone, sent, rest, read, Arrived(Feed, Answers), ok);
      gone' := gone + read;
      messages := if ok then sent + [CString(buf[..])] else sent;
    }
  }

  /** The bytes gone have been sent as the messages, and more is to come. */
  predicate Going(all: string, gone: string, messages: seq<Option<string>>, more: string) {
    all == gone + more && Emitted(all) == messages + Emitted(more)
  }

  lemma GoingStarts(all: string)
    ensures Going(all, "", [], all) && NonNewlines("") == 0
  {
    assert "" + all == all && [] + Emitted(all) == Emitted(all);
  }

  lemma GoingOn(all: string, gone: string, messages: seq<Option<string>>, rest: string, read: string, more: string,
                ok: bool)
    requires Going(all, gone, messages, rest) && |read| <= BufferSize && (ok <==> Cut(rest).Some?)
    requires if ok then |read| == Cut(rest).value && rest == read + more else rest == read
    ensures ok ==> Going(all, gone + read, messages + [CString(Overlaid(Zeros(BufferSize), 0, read))], more)
    ensures !ok ==> messages == Emitted(all) && gone + read == all
  {
    EmitOne(rest, read, more, ok);
    if ok {
      var m := CString(Overlaid(Zeros(BufferSize), 0, read));
      assert messages + ([m] + Emitted(more)) == messages + [m] + Emitted(more);
      Regroup(gone, read, more);
    }
  }

  /** text written over buf at position at. */
  function Overlaid(buf: string, at: nat, text: string): (r: string)
    requires at + |text| <= |buf|
    ensures |r| == |buf|
  {
    buf[..at] + text + buf[at + |text|..]
  }

  lemma OverlaidNothing(buf: string, at: nat)
    requires at <= |buf|
    ensures Overlaid(buf, at, "") == buf
  {
  }

  lemma OverlaidTwice(buf: string, at: nat, first: string, second: string)
    requires at + |first| + |second| <= |buf|
    ensures Overlaid(Overlaid(buf, at, first), at + |first|, second) == Overlaid(buf, at, first + second)
  {
  }

  /** A call of RecvAll that has got so much, with n bytes to go, will end in goal. */
  predicate Continues(goal: Receipt, got: string, feed: string, answers: seq<Answer>, n: nat, last: int) {
    var more := Receive(feed, answers, n, last);
    goal == more.(got := got + more.got)
  }

  lemma ContinuesStep(goal: Receipt, got: string, feed: string, answers: seq<Answer>, n: nat, last: int)
    requires Continues(goal, got, feed, answers, n, last)
    ensures answers == [] ==> goal == Receipt(0 == n, got, feed, [])
    ensures answers != [] && answers[0].Absent? ==> goal == Receipt(last == n, got, feed, answers[1..])
    ensures answers != [] && !answers[0].Absent? ==>
      var r := Received(answers[0], feed, n);
      if r <= 0 then goal == Receipt(r == n, got, feed, answers[1..])
      else if r == n then goal == Receipt(true, got + feed[..r], feed[r..], answers[1..])
      else Continues(goal, got + feed[..r], feed[r..], answers[1..], n - r, r)
  {
    assert got + "" == got;
    if answers != [] && !answers[0].Absent? {
      var r := Received(answers[0], feed, n);
      if 0 < r < n {
        var more := Receive(feed[r..], answers[1..], n - r, r);
        assert got + (feed[..r] + more.got) == got + feed[..r] + more.got;
      }
    }
  }

  // A turn that has brought in `more`, with r as its result.
  lemma TurnMeans(goal: Receipt, got: string, feed: string, answers: seq<Answer>, n: nat, last: int, r: int,
                  more: string)
    requires answers != [] && Continues(goal, got, feed, answers, n, last)
    requires if answers[0].Absent? then r == last && more == ""
             else r == Received(answers[0], feed, n) && more == feed[..if r > 0 then r else 0]
    ensures if answers[0].Absent? || r <= 0 || r == n
            then goal == Receipt(r == n, got + more, feed[|more|..], answers[1..])
            else Continues(goal, got + more, feed[|more|..], answers[1..], n - r, r)
  {
    ContinuesStep(goal, got, feed, answers, n, last);
    hide Continues;
    assert got + "" == got && feed[0..] == feed;
  }

  function Zeros(n: nat): (z: string)
    ensures |z| == n
  {
    seq(n, _ => Nul)
  }

  /** The reads, one byte each, that succeed before one fails. */
  function Ready(answers: seq<Answer>): nat {
    if answers != [] && answers[0].Bytes? && answers[0].count > 0 then 1 + Ready(answers[1..]) else 0
  }

  /** The bytes that reads of one byte each bring in before one fails. */
  function Arrived(feed: string, answers: seq<Answer>): string {
    if Ready(answers) <= |feed| then feed[..Ready(answers)] else feed
  }

  lemma ArrivedStep(feed: string, answers: seq<Answer>)
    ensures feed == "" || Ready(answers) == 0 ==> Arrived(feed, answers) == ""
    ensures feed != "" && Ready(answers) > 0 ==> Arrived(feed, answers) == [feed[0]] + Arrived(feed[1..], answers[1..])
  {
    var n := Ready(answers);
    if feed != "" && n > 0 {
      assert Ready(answers[1..]) == n - 1;
      hide Ready;
      FirstOf(feed, if n <= |feed| then n else |feed|);
    }
  }

  lemma FirstOf(feed: string, n: nat)
    requires 0 < n <= |feed|
    ensures feed[..n] == [feed[0]] + feed[1..][..n - 1] && (n == |feed| ==> feed == [feed[0]] + feed[1..])
  {
  }

  lemma ReceiveOne(feed: string, answers: seq<Answer>)
    ensures Receive(feed, answers, 1, 0) ==
      if Ready(answers) > 0 && feed != "" then Receipt(true, feed[..1], feed[1..], answers[1..])
      else Receipt(false, "", feed, if answers == [] then [] else answers[1..])
  {
  }

  /** A read of one byte brings in the next byte, or fails and nothing is left. */
  lemma OneByte(read: string, feed: string, answers: seq<Answer>)
    ensures var r := Receive(feed, answers, 1, 0); var more := Arrived(feed, answers);
      if r.ok then |r.got| == 1 && read + more == read + r.got + Arrived(r.feed, r.answers) && |r.answers| < |answers|
      else r.got == "" && more == ""
  {
    ReceiveOne(feed, answers);
    ArrivedStep(feed, answers);
    if Ready(answers) > 0 && feed != "" {
      assert feed[..1] == [feed[0]];
      Regroup(read, feed[..1], Arrived(feed[1..], answers[1..]));
    }
    hide Arrived, Receive;
  }

  lemma Regroup(a: string, b: string, c: string)
    ensures a + (b + c) == a + b + c
  {
  }

  predicate Plain(s: string) {
    Newline !in s
  }

  lemma LastByte(buf: string, before: string, got: string)
    requires |before| + |got| <= |buf| && |got| == 1
    ensures Overlaid(buf, 0, before + got)[|before|] == got[0]
    ensures Plain(before + got) <==> Plain(before) && got[0] != Newline
  {
  }

  function NonNewlines(s: string): nat {
    if s == "" then 0 else NonNewlines(s[..|s| - 1]) + if s[|s| - 1] == Newline then 0 else 1
  }

  function FirstNewline(s: string): (n: nat)
    ensures n <= |s|
  {
    if s == "" || s[0] == Newline then 0 else 1 + FirstNewline(s[1..])
  }

  lemma {:induction false} NewlineAt(s: string)
    ensures var n := FirstNewline(s); Newline !in s[..n] && (n < |s| ==> s[n] == Newline)
  {
    if s != "" && s[0] != Newline {
      NewlineAt(s[1..]);
      assert s[..FirstNewline(s)] == [s[0]] + s[1..][..FirstNewline(s) - 1];
    }
  }

  lemma {:induction false} NewlineFirst(s: string, n: nat)
    requires n <= |s| && (forall k | 0 <= k < n :: s[k] != Newline) && (n < |s| ==> s[n] == Newline)
    ensures FirstNewline(s) == n
    decreases n
  {
    if n > 0 { NewlineFirst(s[1..], n - 1); }
  }

  /** How much of the bytes to come goes into one buffer; none if they give out first. */
  function Cut(s: string): (n: Option<nat>)
    ensures n.Some? ==> 0 < n.value <= |s| && n.value <= BufferSize
  {
    var n := FirstNewline(s);
    if n < |s| && n < BufferSize then Some(n + 1)
    else if |s| >= BufferSize then Some(BufferSize)
    else None
  }

  // Where the buffer ends: after read + got there is a newline, or no room, or nothing more.
  lemma PlainCut(read: string, got: string, all: string)
    ensures Plain("") && NonNewlines("") == 0
    ensures Plain(read) ==> NonNewlines(read) == |read|
    ensures Plain(read) && |got| == 1 && got[0] == Newline && |read| < BufferSize && read + got <= all ==>
      Cut(all) == Some(|read + got|) && NonNewlines(read + got) == |read|
    ensures Plain(read) && |read| == BufferSize && read <= all ==> Cut(all) == Some(BufferSize)
    ensures Plain(read) && got == "" && |read| < BufferSize && all == read ==>
      Cut(all) == None && NonNewlines(read + got) == |read|
  {
    assert read + "" == read;
    if Plain(read) {
      AllCounted(read);
      if read <= all { NewlinesAfter(read, all); }
      if |got| == 1 && got[0] == Newline && read + got <= all {
        assert all[|read|] == got[0];
        NewlineFirst(all, |read|);
        assert (read + got)[..|read|] == read;
      }
    }
  }

  // A newline of all comes no sooner than read, which has none.
  lemma NewlinesAfter(read: string, all: string)
    requires Plain(read) && read <= all
    ensures FirstNewline(all) >= |read|
  {
    NewlineAt(all);
    var n := FirstNewline(all);
    assert forall k | 0 <= k < |read| :: all[k] == read[k];
  }

  lemma {:induction false} AllCounted(s: string)
    requires Plain(s)
    ensures NonNewlines(s) == |s|
  {
    if s != "" { AllCounted(s[..|s| - 1]); }
  }

  lemma AllZeros(s: string)
    requires forall i | 0 <= i < |s| :: s[i] == Nul
    ensures s == Zeros(|s|)
  {
  }

  lemma {:induction false} CountMore(s: string, t: string)
    ensures NonNewlines(s + t) == NonNewlines(s) + NonNewlines(t)
    decreases |t|
  {
    if t == "" {
      assert s + t == s;
    } else {
      CountMore(s, t[..|t| - 1]);
      assert (s + t)[..|s + t| - 1] == s + t[..|t| - 1];
    }
  }

  /** The string that starts a buffer, if it ends there. */
  function CString(buf: string): Option<string> {
    if buf == "" then None
    else if buf[0] == Nul then Some("")
    else match CString(buf[1..]) case None => None case Some(t) => Some([buf[0]] + t)
  }

  /** What is sent of the bytes to come: one message for each full piece. */
  function Emitted(s: string): seq<Option<string>>
    decreases |s|
  {
    match Cut(s)
    case None => []
    case Some(n) => [CString(Overlaid(Zeros(BufferSize), 0, s[..n]))] + Emitted(s[n..])
  }

  lemma EmitOne(s: string, read: string, more: string, ok: bool)
    requires |read| <= BufferSize && (ok <==> Cut(s).Some?)
    requires if ok then |read| == Cut(s).value && s == read + more else s == read
    ensures ok ==> Emitted(s) == [CString(Overlaid(Zeros(BufferSize), 0, read))] + Emitted(more)
    ensures !ok ==> Emitted(s) == []
  {
    if ok { assert s[..|read|] == read && s[|read|..] == more; }
  }

  // ---------------------------------------------------------- the lines

  predicate HasLine(s: string) {
    FirstNewline(s) < |s|
  }

  function FirstLine(s: string): string
    requires HasLine(s)
  {
    s[..FirstNewline(s) + 1]
  }

  function Rest(s: string): (r: string)
    requires HasLine(s)
    ensures |r| < |s|
  {
    s[FirstNewline(s) + 1..]
  }

  /** The complete lines of s, newlines included. */
  function Lines(s: string): seq<string>
    decreases |s|
  {
    if HasLine(s) then [FirstLine(s)] + Lines(Rest(s)) else []
  }

  /** What is left after the last newline. */
  function Partial(s: string): string
    decreases |s|
  {
    if HasLine(s) then Partial(Rest(s)) else s
  }

  function Concat(lines: seq<string>): string {
    if lines == [] then "" else lines[0] + Concat(lines[1..])
  }

  lemma ConcatFirst(line: string, lines: seq<string>)
    ensures Concat([line] + lines) == line + Concat(lines)
  {
    assert ([line] + lines)[1..] == lines;
  }

  lemma LastPartial(s: string)
    ensures HasLine(s) ==> s == FirstLine(s) + Rest(s)
    ensures !HasLine(s) ==> Newline !in s
  {
    NewlineAt(s);
    if !HasLine(s) { assert s[..FirstNewline(s)] == s; }
  }

  /** The lines make up the longest prefix of s that ends in a newline. */
  lemma {:induction false} LinesPrefix(s: string)
    ensures Concat(Lines(s)) + Partial(s) == s && Newline !in Partial(s)
    decreases |s|
  {
    hide Concat, FirstLine, Rest, HasLine;
    LastPartial(s);
    if HasLine(s) {
      LinesPrefix(Rest(s));
      ConcatFirst(FirstLine(s), Lines(Rest(s)));
      Regroup(FirstLine(s), Concat(Lines(Rest(s))), Partial(Rest(s)));
    } else {
      ConcatNone();
      assert "" + s == s;
    }
  }

  lemma ConcatNone()
    ensures Concat([]) == ""
  {
  }

  function Wrapped(lines: seq<string>): seq<Option<string>> {
    seq(|lines|, i requires 0 <= i < |lines| => Some(lines[i]))
  }

  /** Every line fits a buffer with its terminator and holds no NUL, and so does
      what is left fit. */
  predicate Fits(s: string) {
    AllFit(Lines(s)) && |Partial(s)| < BufferSize
  }

  predicate AllFit(lines: seq<string>) {
    forall l | l in lines :: |l| < BufferSize && Nul !in l
  }

  lemma AllFitFirst(line: string, lines: seq<string>)
    ensures AllFit([line] + lines) <==> |line| < BufferSize && Nul !in line && AllFit(lines)
  {
    if AllFit([line] + lines) {
      assert line in [line] + lines && forall l | l in lines :: l in [line] + lines;
    }
  }

  lemma {:induction false} CStringOf(read: string, n: nat)
    ensures CString(read + Zeros(n)) == Some(read) <==> Nul !in read && n > 0
    ensures Nul in read || n > 0 ==> CString(read + Zeros(n)).Some? && CString(read + Zeros(n)).value <= read
  {
    if read == "" {
      assert read + Zeros(n) == Zeros(n);
    } else {
      assert (read + Zeros(n))[1..] == read[1..] + Zeros(n);
      CStringOf(read[1..], n);
      assert read == [read[0]] + read[1..];
    }
  }

  lemma PaddedCString(read: string)
    requires |read| <= BufferSize
    ensures var c := CString(Overlaid(Zeros(BufferSize), 0, read));
      && (c == Some(read) <==> Nul !in read && |read| < BufferSize)
      && (c.Some? ==> |c.value| <= |read|)
  {
    assert Overlaid(Zeros(BufferSize), 0, read) == read + Zeros(BufferSize - |read|);
    CStringOf(read, BufferSize - |read|);
    CStringShort(read + Zeros(BufferSize - |read|));
  }

  lemma {:induction false} CStringShort(buf: string)
    ensures CString(buf).Some? ==>
      |CString(buf).value| < |buf| && CString(buf).value <= buf && buf[|CString(buf).value|] == Nul
    ensures forall k | 0 <= k < |buf| && buf[k] == Nul :: CString(buf).Some? && |CString(buf).value| <= k
  {
    if buf != "" { CStringShort(buf[1..]); }
  }

  lemma WrappedFirst(line: string, lines: seq<string>)
    ensures Wrapped([line] + lines) == [Some(line)] + Wrapped(lines)
  {
  }

  lemma FitsFirst(s: string)
    requires HasLine(s)
    ensures Fits(s) <==> |FirstLine(s)| < BufferSize && Nul !in FirstLine(s) && Fits(Rest(s))
  {
    hide AllFit, FirstLine, Rest, HasLine;
    AllFitFirst(FirstLine(s), Lines(Rest(s)));
  }

  /** The messages sent are the lines of the stream if and only if each line fits
      the buffer with its terminator and holds no NUL byte, and what is left fits too. */
  lemma {:induction false} IntactIff(s: string)
    ensures Emitted(s) == Wrapped(Lines(s)) <==> Fits(s)
    decreases |s|
  {
    hide Fits, CString, Overlaid, Zeros, Wrapped, FirstLine, Rest, HasLine, FirstNewline;
    if !HasLine(s) {
      WholeLeft(s);
    } else {
      var size := CutLine(s);
      var message := CString(Overlaid(Zeros(BufferSize), 0, s[..size]));
      FitsFirst(s);
      WrappedFirst(FirstLine(s), Lines(Rest(s)));
      PaddedCString(s[..size]);
      SameFirst(message, Emitted(s[size..]), Some(FirstLine(s)), Wrapped(Lines(Rest(s))));
      if |FirstLine(s)| < BufferSize { IntactIff(Rest(s)); }
    }
  }

  // The first piece is the first line, or as much of it as fits.
  lemma CutLine(s: string) returns (size: nat)
    requires HasLine(s)
    ensures Cut(s) == Some(size) && size <= |s|
    ensures if |FirstLine(s)| < BufferSize
            then s[..size] == FirstLine(s) && s[size..] == Rest(s) && size == |FirstLine(s)|
            else size == BufferSize && (|FirstLine(s)| == size ==> s[..size] == FirstLine(s))
  {
    size := Cut(s).value;
  }

  lemma SameFirst<T>(a: T, xs: seq<T>, b: T, ys: seq<T>)
    ensures [a] + xs == [b] + ys <==> a == b && xs == ys
  {
    assert ([a] + xs)[0] == a && ([b] + ys)[0] == b && ([a] + xs)[1..] == xs && ([b] + ys)[1..] == ys;
  }

  lemma WholeLeft(s: string)
    requires !HasLine(s)
    ensures Lines(s) == [] && Wrapped([]) == [] && (Fits(s) <==> |s| < BufferSize)
    ensures Emitted(s) == [] <==> |s| < BufferSize
  {
  }

  /** One buffer full: up to a newline, which is its only one, or 1024 bytes without any but the last. */
  predicate Piece(p: string) {
    && 0 < |p| <= BufferSize && Newline !in p[..|p| - 1]
    && (p[|p| - 1] == Newline || |p| == BufferSize)
  }

  /** What strlen makes of a piece in a cleared buffer: what comes before its first
      NUL, all of it if it has none, and nothing that ends if it fills the buffer as well. */
  predicate MessageOf(p: string, m: Option<string>) {
    match m
    case Some(t) => t <= p && Nul !in t && (if t == p then |p| < BufferSize else p[|t|] == Nul)
    case None => |p| == BufferSize && Nul !in p
  }

  /** However the stream is made up, of lines of any length and bytes of any kind:
      cut into pieces that fill one buffer each, with less than one piece left, the messages
      are those of the pieces, one by one. */
  lemma {:induction false} MessagesOfPieces(ps: seq<string>, left: string)
    requires (forall p | p in ps :: Piece(p)) && Newline !in left && |left| < BufferSize
    ensures |Emitted(Concat(ps) + left)| == |ps|
    ensures forall k | 0 <= k < |ps| :: MessageOf(ps[k], Emitted(Concat(ps) + left)[k])
  {
    if ps == [] {
      assert "" + left == left;
      NewlineFirst(left, |left|);
    } else {
      var p, rest := ps[0], Concat(ps[1..]) + left;
      MessagesOfPieces(ps[1..], left);
      Regroup(p, Concat(ps[1..]), left);
      CutPiece(p, rest);
      PieceMessage(p);
      hide Concat, CString, Overlaid, Zeros, Piece, MessageOf;
    }
  }

  lemma CutPiece(p: string, rest: string)
    requires Piece(p)
    ensures Emitted(p + rest) == [CString(Overlaid(Zeros(BufferSize), 0, p))] + Emitted(rest)
  {
    var s, n := p + rest, |p| - 1;
    assert s[n] == p[n] && forall k | 0 <= k < n :: s[k] == p[..n][k];
    assert s[..|p|] == p && s[|p|..] == rest;
    if p[n] == Newline {
      NewlineFirst(s, n);
    } else {
      NewlinesAfter(p, s);
    }
  }

  lemma PieceMessage(p: string)
    requires |p| <= BufferSize
    ensures MessageOf(p, CString(Overlaid(Zeros(BufferSize), 0, p)))
  {
    var buf := p + Zeros(BufferSize - |p|);
    assert Overlaid(Zeros(BufferSize), 0, p) == buf;
    CStringShort(buf);
    CStringOf(p, BufferSize - |p|);
  }

  /** Every stream can be cut like that. */
  lemma {:induction false} Pieces(s: string) returns (ps: seq<string>, left: string)
    ensures s == Concat(ps) + left && (forall p | p in ps :: Piece(p)) && Newline !in left && |left| < BufferSize
    decreases |s|
  {
    NewlineAt(s);
    match Cut(s)
    case None =>
      ps, left := [], s;
      assert "" + s == s;
      assert s[..FirstNewline(s)] == s;
    case Some(n) =>
      var p := s[..n];
      assert Piece(p) by { assert forall k | 0 <= k < n - 1 :: p[k] == s[..FirstNewline(s)][k]; }
      var more;
      more, left := Pieces(s[n..]);
      ps := [p] + more;
      ConcatFirst(p, more);
      Regroup(p, Concat(more), left);
      hide Concat, Piece;
      assert s == p + s[n..];
  }

  predicate Line(l: string) {
    l != "" && l[|l| - 1] == Newline && Newline !in l[..|l| - 1]
  }

  /** Whatever lines a peer sends, and however the bytes are split up, they come
      out one by one; a last line that is cut off does not. */
  lemma {:induction false} FramingRoundTrip(lines: seq<string>, left: string)
    requires forall l | l in lines :: Line(l) && |l| < BufferSize && Nul !in l
    requires Newline !in left && |left| < BufferSize
    ensures Emitted(Concat(lines) + left) == Wrapped(lines)
  {
    LinesBack(lines, left);
    IntactIff(Concat(lines) + left);
  }

  lemma {:induction false} LinesBack(lines: seq<string>, left: string)
    requires (forall l | l in lines :: Line(l)) && Newline !in left
    ensures Lines(Concat(lines) + left) == lines && Partial(Concat(lines) + left) == left
  {
    if lines == [] {
      assert "" + left == left;
      NewlineFirst(left, |left|);
    } else {
      var l := lines[0];
      var rest := Concat(lines[1..]) + left;
      LinesBack(lines[1..], left);
      Regroup(l, Concat(lines[1..]), left);
      LineFirst(l, rest);
    }
  }

  lemma LineFirst(l: string, rest: string)
    requires Line(l)
    ensures Lines(l + rest) == [l] + Lines(rest) && Partial(l + rest) == Partial(rest)
  {
    var s := l + rest;
    assert s[|l| - 1] == Newline && forall k | 0 <= k < |l| - 1 :: s[k] == l[..|l| - 1][k];
    NewlineFirst(s, |l| - 1);
    assert HasLine(s) && FirstLine(s) == l && Rest(s) == rest;
    hide HasLine, FirstLine, Rest;
  }

  // ------------------------------------------------------------- RecvAll

  // A turn that brings in some bytes, but not all.
  lemma ReceiveOn(feed: string, answers: seq<Answer>, n: nat, last: int)
    requires answers != [] && !answers[0].Absent? && 0 < Received(answers[0], feed, n) < n
    ensures var r := Received(answers[0], feed, n); var rest := Receive(feed[r..], answers[1..], n - r, r);
      Receive(feed, answers, n, last) == Receipt(rest.ok, feed[..r] + rest.got, rest.feed, rest.answers)
  {
  }

  // The last turn of a call.
  lemma ReceiveLast(feed: string, answers: seq<Answer>, n: nat, last: int)
    requires answers == [] || answers[0].Absent? || !(0 < Received(answers[0], feed, n) < n)
    ensures var r := Receive(feed, answers, n, last);
      r.got + r.feed == feed && |r.got| <= n && (|r.got| == n && n > 0 ==> r.ok)
  {
    if answers != [] && !answers[0].Absent? {
      var r := Received(answers[0], feed, n);
      if r > 0 { assert feed[..r] + feed[r..] == feed; }
    }
    assert "" + feed == feed;
  }

  /** What RecvAll gets is always the next bytes of the feed, and having got all
      it was asked for it succeeds. */
  lemma {:induction false} ReceiveMeaning(feed: string, answers: seq<Answer>, n: nat, last: int)
    ensures var r := Receive(feed, answers, n, last);
      r.got + r.feed == feed && |r.got| <= n && (|r.got| == n && n > 0 ==> r.ok)
    decreases n
  {
    if answers == [] || answers[0].Absent? || !(0 < Received(answers[0], feed, n) < n) {
      ReceiveLast(feed, answers, n, last);
    } else {
      var r := Received(answers[0], feed, n);
      ReceiveOn(feed, answers, n, last);
      ReceiveMeaning(feed[r..], answers[1..], n - r, r);
      hide Receive, Received;
      Rejoin(feed, r, Receive(feed[r..], answers[1..], n - r, r));
    }
  }

  lemma Rejoin(feed: string, k: nat, rest: Receipt)
    requires k <= |feed| && rest.got + rest.feed == feed[k..]
    ensures feed[..k] + rest.got + rest.feed == feed
  {
    Regroup(feed[..k], rest.got, rest.feed);
    assert feed[..k] + feed[k..] == feed;
  }

  /** What the answers bring in, if each brings in some bytes. */
  function Coming(answers: seq<Answer>): nat {
    if answers == [] then 0 else (if answers[0].Bytes? then answers[0].count else 0) + Coming(answers[1..])
  }

  predicate AllBring(answers: seq<Answer>) {
    forall a | a in answers :: a.Bytes? && a.count > 0
  }

  lemma AllBringFirst(answers: seq<Answer>, k: nat)
    requires 0 < k <= |answers| && AllBring(answers[..k])
    ensures answers[0].Bytes? && answers[0].count > 0 && AllBring(answers[1..][..k - 1])
    ensures Coming(answers[..k]) == answers[0].count + Coming(answers[1..][..k - 1])
  {
    assert answers[..k][0] == answers[0] && answers[..k][1..] == answers[1..][..k - 1];
    assert answers[0] in answers[..k] && forall a | a in answers[..k][1..] :: a in answers[..k];
  }

  lemma Halves(feed: string, a: nat, b: nat)
    requires a + b <= |feed|
    ensures feed[..a] + feed[a..][..b] == feed[..a + b] && feed[a..][b..] == feed[a + b..]
  {
  }

  /** RecvAll goes on after each answer that brings in less than is still to come,
      and succeeds with the one that brings in the rest. */
  lemma {:induction false} ReceiveAll(feed: string, answers: seq<Answer>, n: nat, last: int, k: nat)
    requires k < |answers| && AllBring(answers[..k + 1]) && n <= |feed|
    requires Coming(answers[..k]) < n <= Coming(answers[..k + 1])
    ensures Receive(feed, answers, n, last) == Receipt(true, feed[..n], feed[n..], answers[k + 1..])
    decreases k
  {
    AllBringFirst(answers, k + 1);
    if k > 0 {
      var c := answers[0].count;
      assert answers[..k + 1][..k] == answers[..k];
      assert AllBring(answers[..k]) by { assert forall a | a in answers[..k] :: a in answers[..k + 1]; }
      AllBringFirst(answers, k);
      ReceiveAll(feed[c..], answers[1..], n - c, c, k - 1);
      Halves(feed, c, n - c);
      assert answers[1..][k..] == answers[k + 1..];
    }
  }

  /** What a call that ends with the k-th answer has come to, that answer bringing in nothing. */
  function Cutoff(feed: string, answers: seq<Answer>, n: nat, last: int, k: nat): Receipt
    requires k <= |answers| && Coming(answers[..k]) <= |feed| && (k > 0 ==> answers[k - 1].Bytes?)
  {
    var size := Coming(answers[..k]);
    var before := if k == 0 then last else answers[k - 1].count;
    Receipt(k < |answers| && answers[k].Absent? && before == n - size, feed[..size], feed[size..],
            if k < |answers| then answers[k + 1..] else [])
  }

  lemma CutoffShort(feed: string, answers: seq<Answer>, n: nat, last: int, k: nat)
    requires 0 < k <= |answers| && AllBring(answers[..k]) && Coming(answers[..k]) < n && Coming(answers[..k]) <= |feed|
    ensures answers[0].Bytes? && answers[k - 1].Bytes?
    ensures var c := answers[0].count;
      && 0 < c < n && c <= |feed| && Coming(answers[1..][..k - 1]) == Coming(answers[..k]) - c
      && AllBring(answers[1..][..k - 1]) && (k > 1 ==> answers[1..][k - 2].Bytes?)
      && var rest := Cutoff(feed[c..], answers[1..], n - c, c, k - 1);
         Cutoff(feed, answers, n, last, k) == Receipt(rest.ok, feed[..c] + rest.got, rest.feed, rest.answers)
  {
    assert answers[k - 1] == answers[..k][k - 1];
    AllBringFirst(answers, k);
    var c, more := answers[0].count, answers[1..];
    if k < |answers| { assert more[k - 1] == answers[k] && more[k..] == answers[k + 1..]; }
    if k > 1 { assert more[k - 2] == answers[k - 1]; }
    hide AllBring, Coming;
    Halves(feed, c, Coming(more[..k - 1]));
  }

  /** ... and it ends early with the first answer that brings in nothing: then it
      reports success if and only if there was no socket, and the bytes before were as many as are missing. */
  lemma {:induction false} ReceiveSome(feed: string, answers: seq<Answer>, n: nat, last: int, k: nat)
    requires k <= |answers| && AllBring(answers[..k]) && Coming(answers[..k]) < n && Coming(answers[..k]) <= |feed|
    requires k < |answers| && answers[k].Bytes? && answers[k].count > 0 ==> Coming(answers[..k]) == |feed|
    ensures k > 0 ==> answers[k - 1].Bytes?
    ensures Receive(feed, answers, n, last) == Cutoff(feed, answers, n, last, k)
    decreases k
  {
    if k == 0 {
      CutoffNow(feed, answers, n, last);
    } else {
      CutoffShort(feed, answers, n, last, k);
      var c := answers[0].count;
      ReceiveBytes(feed, answers, n, last);
      hide Cutoff, Receive, Coming, AllBring;
      if k < |answers| { assert answers[1..][k - 1] == answers[k]; }
      ReceiveSome(feed[c..], answers[1..], n - c, c, k - 1);
    }
  }

  lemma ReceiveBytes(feed: string, answers: seq<Answer>, n: nat, last: int)
    requires answers != [] && answers[0].Bytes? && 0 < answers[0].count < n && answers[0].count <= |feed|
    ensures var c := answers[0].count; var rest := Receive(feed[c..], answers[1..], n - c, c);
      Receive(feed, answers, n, last) == Receipt(rest.ok, feed[..c] + rest.got, rest.feed, rest.answers)
  {
    ReceiveOn(feed, answers, n, last);
    hide Receive;
  }

  lemma CutoffNow(feed: string, answers: seq<Answer>, n: nat, last: int)
    requires n > 0 && (answers != [] && answers[0].Bytes? && answers[0].count > 0 ==> feed == "")
    ensures Receive(feed, answers, n, last) == Cutoff(feed, answers, n, last, 0)
  {
    assert answers[..0] == [] && feed[..0] == "" && feed[0..] == feed;
    ReceiveNone(feed, answers, n, last);
    hide Receive;
  }

  lemma ReceiveNone(feed: string, answers: seq<Answer>, n: nat, last: int)
    requires n > 0 && (answers != [] && answers[0].Bytes? && answers[0].count > 0 ==> feed == "")
    ensures Receive(feed, answers, n, last) ==
      if answers == [] then Receipt(false, "", feed, [])
      else Receipt(answers[0].Absent? && last == n, "", feed, answers[1..])
  {
  }

  /** As long as the socket is there, RecvAll succeeds exactly when it has got all it was asked for. */
  lemma {:induction false} ConnectedTruthful(feed: string, answers: seq<Answer>, n: nat, last: int)
    requires n > 0 && Absent !in answers
    ensures Receive(feed, answers, n, last).ok <==> |Receive(feed, answers, n, last).got| == n
    decreases n
  {
    if answers != [] {
      var r := Received(answers[0], feed, n);
      if 0 < r < n { ConnectedTruthful(feed[r..], answers[1..], n - r, r); }
    }
  }

  predicate Truthful(feed: string, answers: seq<Answer>, n: nat) {
    Receive(feed, answers, n, 0).ok <==> |Receive(feed, answers, n, 0).got| == n
  }

  /** If the socket may go away in the middle, RecvAll can be trusted for exactly
      one byte: asked for more, it can report success with a byte missing, and asked for none
      it can report a failure. */
  lemma TruthfulIff(n: nat)
    ensures (forall feed, answers :: Truthful(feed, answers, n)) <==> n == 1
  {
    if n == 1 {
      forall feed, answers ensures Truthful(feed, answers, n) { ReceiveOne(feed, answers); }
    } else if n == 0 {
      assert !Truthful("", [Error(-1)], n);
    } else {
      var feed, answers := Misled(n);
      assert !Truthful(feed, answers, n);
    }
  }

  lemma Misled(n: nat) returns (feed: string, answers: seq<Answer>)
    requires n >= 2
    ensures Receive(feed, answers, n, 0).ok && |Receive(feed, answers, n, 0).got| == n - 1
  {
    feed := Zeros(n);
    var tail := [Bytes(1), Absent];
    assert tail[1..] == [Absent];
    if n == 2 {
      answers := tail;
      assert Receive(feed[1..], [Absent], 1, 1) == Receipt(true, "", feed[1..], [Absent][1..]);
    } else {
      answers := [Bytes(n - 2)] + tail;
      assert answers[1..] == tail;
      var rest := feed[n - 2..];
      assert Receive(rest[1..], [Absent], 1, 1) == Receipt(true, "", rest[1..], [Absent][1..]);
      assert Receive(rest, tail, 2, n - 2).ok && |Receive(rest, tail, 2, n - 2).got| == 1;
    }
  }
}
