/** ARSTHeartbeat: a loop over the outcomes of its waits. */
module Heartbeat {
  import opened Records

  /** How a wait on {reply, terminate} ended. */
  datatype Outcome = TimedOut | Fired(index: int) | Failed

  datatype Callback = Request | Lost | Error(data: int, message: string)

  const IdleIncrement := 5
  const ExtraGrace := 10

  predicate Final(c: Option<Callback>) {
    c.Some? && !c.value.Request?
  }

  class Heartbeat {
    var TimeInterval: int
    var IdleTime: int
    const HasCallback: bool

    constructor (hasCallback: bool)
      ensures TimeInterval == 0 && IdleTime == 0 && HasCallback == hasCallback
    {
      TimeInterval, IdleTime, HasCallback := 0, 0, hasCallback;
    }

    method SetTimeInterval(interval: int)
      modifies this`TimeInterval
      ensures TimeInterval == interval
    {
      TimeInterval := interval;
    }

    /** Run, when its waits end as in outcomes: calls[k] is the callback made
        after the k-th.  It stops at the first of them that ends it, or is still
        waiting when the outcomes are used up. */
    method Run(outcomes: seq<Outcome>) returns (calls: seq<Option<Callback>>, stopped: bool)
      modifies this`IdleTime
      ensures !HasCallback ==> calls == [] && stopped && IdleTime == old(IdleTime)
      ensures HasCallback ==>
        && (stopped <==> exists k :: 0 <= k < |outcomes| && EndsAt(TimeInterval, old(IdleTime), outcomes, k))
        && |calls| <= |outcomes| && (!stopped ==> |calls| == |outcomes|)
        && (stopped ==> calls != [] && EndsAt(TimeInterval, old(IdleTime), outcomes, |calls| - 1))
        && (forall k | 0 <= k < |calls| - 1 :: !EndsAt(TimeInterval, old(IdleTime), outcomes, k))
        && (forall k | 0 <= k < |calls| :: CalledAt(TimeInterval, old(IdleTime), outcomes, k, calls[k]))
        && IdleTime == IdleFor(old(IdleTime), outcomes[..|calls|])
    {
      calls, stopped := [], false;
      if !HasCallback {
        return [], true;
      }
      var next := 0;
      ghost var start := IdleTime;
      assert outcomes[..0] == [];
      while next < |outcomes|
        invariant 0 <= next <= |outcomes| && |calls| == next && !stopped
        invariant forall k | 0 <= k < next :: CalledAt(TimeInterval, start, outcomes, k, calls[k])
        invariant forall k | 0 <= k < next :: !EndsAt(TimeInterval, start, outcomes, k)
        invariant Patient(TimeInterval, start, outcomes[..next]) && IdleTime == IdleFor(start, outcomes[..next])
      {
        AtNext(TimeInterval, start, outcomes, next);
        hide IdleFor, EndsAt, Patient, CalledAt, Due;
        var call;
        call, stopped := React(outcomes[next], start, outcomes[..next]);
        calls := calls + [call];
        next := next + 1;
        if stopped {
          return;
        }
      }
      assert outcomes[..next] == outcomes;
    }

    /** One turn of the loop, after the waits `before` and one that ends in outcome. */
    method React(outcome: Outcome, ghost start: int, ghost before: seq<Outcome>)
      returns (call: Option<Callback>, stop: bool)
      requires IdleTime == IdleFor(start, before)
      modifies this`IdleTime
      ensures IdleTime == IdleFor(start, before + [outcome])
      ensures call == Due(TimeInterval, start, before + [outcome]) && stop == Final(call)
    {
      Onward(start, before, outcome);
      match outcome
      case Failed =>
        return Some(Error(0, "HEARTBEAT_ERROR_IN_WAIT")), true;
      case TimedOut =>
        IdleTime := IdleTime + IdleIncrement;
        if IdleTime < TimeInterval {
          return None, false;
        }
        if IdleTime <= TimeInterval + ExtraGrace {
          return Some(Request), false;
        }
        return Some(Lost), true;
      case Fired(index) =>
        if index == 0 {
          IdleTime := 0;
          return None, false;
        } else if index == 1 {
          return Some(Error(0, "HEARTBEAT_TERMINATE")), true;
        } else {
          return Some(Error(index, "HEARTBEAT_UNEXPECTED_INDEX_ERROR")), true;
        }
    }
  }

  lemma Onward(start: int, before: seq<Outcome>, o: Outcome)
    ensures IdleFor(start, before + [o]) ==
      match o
      case TimedOut => IdleFor(start, before) + IdleIncrement
      case _ => if o == Fired(0) then 0 else IdleFor(start, before)
  {
    assert (before + [o])[..|before|] == before;
    assert o in before + [o] && forall x | x in before :: x in before + [o];
  }

  /** The time-outs since the last reply, or since the beginning. */
  function Quiet(os: seq<Outcome>): (n: nat)
    ensures n <= |os|
  {
    if os == [] || os[|os| - 1] == Fired(0) then 0
    else Quiet(os[..|os| - 1]) + if os[|os| - 1].TimedOut? then 1 else 0
  }

  predicate Answered(os: seq<Outcome>) {
    Fired(0) in os
  }

  /** The idle time after os, having started at start. */
  function IdleFor(start: int, os: seq<Outcome>): int {
    (if Answered(os) then 0 else start) + IdleIncrement * Quiet(os)
  }

  /** The callback due after the last of os. */
  function Due(interval: int, start: int, os: seq<Outcome>): Option<Callback>
    requires os != []
  {
    match os[|os| - 1]
    case TimedOut =>
      var idle := IdleFor(start, os);
      if idle < interval then None else if idle <= interval + ExtraGrace then Some(Request) else Some(Lost)
    case Fired(index) =>
      if index == 0 then None
      else if index == 1 then Some(Error(0, "HEARTBEAT_TERMINATE"))
      else Some(Error(index, "HEARTBEAT_UNEXPECTED_INDEX_ERROR"))
    case Failed => Some(Error(0, "HEARTBEAT_ERROR_IN_WAIT"))
  }

  // ------------------------------------------------------- when it stops

  /** How many time-outs in a row it takes: the first multiple of five past the grace. */
  function Patience(interval: int): (n: nat)
    ensures n >= 1
    ensures IdleIncrement * n > interval + ExtraGrace
    ensures n == 1 || IdleIncrement * (n - 1) <= interval + ExtraGrace
  {
    if interval + ExtraGrace < 0 then 1 else (interval + ExtraGrace) / IdleIncrement + 1
  }

  /** The last of os makes the loop stop: a failed wait, any index but that of the
      reply, or the time-out that uses up the patience, whose count since the last
      reply is just that. */
  predicate Ends(interval: int, start: int, os: seq<Outcome>)
    requires os != []
  {
    match os[|os| - 1]
    case Failed => true
    case Fired(index) => index != 0
    case TimedOut => Quiet(os) == Patience(interval - if Answered(os) then 0 else start)
  }

  /** Some patience is left after os. */
  predicate Patient(interval: int, start: int, os: seq<Outcome>) {
    Quiet(os) < Patience(interval - if Answered(os) then 0 else start)
  }

  /** The callback that belongs to an outcome, with so much idle time after it. */
  predicate Suits(call: Option<Callback>, o: Outcome, interval: int, idle: int) {
    && (o == Fired(0) ==> call == None)
    && (o == Fired(1) ==> call == Some(Error(0, "HEARTBEAT_TERMINATE")))
    && (o.Fired? && o.index != 0 && o.index != 1 ==> call == Some(Error(o.index, "HEARTBEAT_UNEXPECTED_INDEX_ERROR")))
    && (o.Failed? ==> call == Some(Error(0, "HEARTBEAT_ERROR_IN_WAIT")))
    && (o.TimedOut? && idle < interval ==> call == None)
    && (o.TimedOut? && interval <= idle <= interval + 10 ==> call == Some(Request))
    && (o.TimedOut? && idle >= interval && idle > interval + 10 ==> call == Some(Lost))
  }

  predicate EndsAt(interval: int, start: int, os: seq<Outcome>, k: nat)
    requires k < |os|
  {
    Ends(interval, start, os[..k + 1])
  }

  /** The callback after the k-th outcome is the one due, and the one that belongs to it. */
  predicate CalledAt(interval: int, start: int, os: seq<Outcome>, k: nat, call: Option<Callback>)
    requires k < |os|
  {
    call == Due(interval, start, os[..k + 1]) && Suits(call, os[k], interval, IdleFor(start, os[..k + 1]))
  }

  lemma AtNext(interval: int, start: int, os: seq<Outcome>, k: nat)
    requires k < |os| && Patient(interval, start, os[..k])
    ensures os[..k + 1] == os[..k] + [os[k]]
    ensures var call := Due(interval, start, os[..k + 1]);
      && CalledAt(interval, start, os, k, call) && (Final(call) <==> EndsAt(interval, start, os, k))
      && (!Final(call) ==> Patient(interval, start, os[..k + 1]))
  {
    assert os[..k + 1] == os[..k] + [os[k]];
    EndsIff(interval, start, os[..k], os[k]);
    hide Due, Ends, Suits, Patient, IdleFor;
  }

  /** What is due is what belongs to the outcome, and it is final if and only if the outcome ends the loop. */
  lemma EndsIff(interval: int, start: int, before: seq<Outcome>, o: Outcome)
    requires Patient(interval, start, before)
    ensures var os := before + [o];
      && (Final(Due(interval, start, os)) <==> Ends(interval, start, os))
      && (!Ends(interval, start, os) ==> Patient(interval, start, os))
      && Suits(Due(interval, start, os), o, interval, IdleFor(start, os))
  {
    var os := before + [o];
    assert os[..|before|] == before;
    assert o in os && forall x | x in before :: x in os;
    assert Answered(os) <==> Answered(before) || o == Fired(0);
  }

  /** The heartbeat is still running after os: nothing final has been called. */
  predicate Alive(interval: int, os: seq<Outcome>) {
    os == [] || (Alive(interval, os[..|os| - 1]) && !Final(Due(interval, 0, os)))
  }

  /** The idle time of a running heartbeat is five seconds for each time-out since
      the last reply, and it is given up exactly when its patience is used up by
      time-outs in a row, no sooner and no later. */
  lemma LostExactly(interval: int, os: seq<Outcome>)
    requires os != [] && Alive(interval, os[..|os| - 1])
    ensures IdleFor(0, os) == IdleIncrement * Quiet(os)
    ensures Quiet(os[..|os| - 1]) < Patience(interval)
    ensures Due(interval, 0, os) == Some(Lost) <==> os[|os| - 1].TimedOut? && Quiet(os) == Patience(interval)
  {
  }

  /** The idle time never gets past the interval by more than the grace and one increment. */
  lemma IdleBound(interval: int, os: seq<Outcome>)
    requires os != [] && Alive(interval, os[..|os| - 1])
    ensures 0 <= IdleFor(0, os) <=
      if interval >= -ExtraGrace then interval + ExtraGrace + IdleIncrement else IdleIncrement
  {
    LostExactly(interval, os);
    assert Quiet(os) <= Quiet(os[..|os| - 1]) + 1;
  }

  // -------------------------------------------------- a silent stretch

  /** The requests among the callbacks of os. */
  function Made(interval: int, os: seq<Outcome>): nat {
    if os == [] then 0
    else Made(interval, os[..|os| - 1]) + if Due(interval, 0, os) == Some(Request) then 1 else 0
  }

  function Silence(n: nat): seq<Outcome> {
    seq(n, _ => TimedOut)
  }

  lemma NoSilence(before: seq<Outcome>)
    ensures before + Silence(0) == before
  {
  }

  lemma OneQuieter(before: seq<Outcome>, n: nat)
    requires n > 0
    ensures var os := before + Silence(n);
      os != [] && os[|os| - 1] == TimedOut && os[..|os| - 1] == before + Silence(n - 1)
  {
  }

  lemma {:induction false} QuietStretch(before: seq<Outcome>, n: nat)
    requires before == [] || before[|before| - 1] == Fired(0)
    ensures Quiet(before + Silence(n)) == n && IdleFor(0, before + Silence(n)) == IdleIncrement * n
  {
    hide Silence;
    if n == 0 {
      NoSilence(before);
    } else {
      OneQuieter(before, n);
      QuietStretch(before, n - 1);
    }
  }

  /** In n silent waits after the beginning or a reply, a request is made at each
      multiple of five from the interval to the grace. */
  lemma {:induction false} StretchRequests(interval: int, before: seq<Outcome>, n: nat)
    requires interval > 0 && (before == [] || before[|before| - 1] == Fired(0))
    ensures var first := (interval + 4) / 5; var last := (interval + 10) / 5;
      Made(interval, before + Silence(n)) ==
        Made(interval, before) + if n < first then 0 else if n <= last then n - first + 1 else last - first + 1
  {
    QuietStretch(before, n);
    if n == 0 {
      NoSilence(before);
    } else {
      OneQuieter(before, n);
      StretchRequests(interval, before, n - 1);
    }
  }

  // What is due after n silent waits.
  lemma DueInSilence(interval: int, before: seq<Outcome>, n: nat)
    requires n > 0 && (before == [] || before[|before| - 1] == Fired(0))
    ensures before + Silence(n) != []
    ensures Due(interval, 0, before + Silence(n)) ==
      if IdleIncrement * n < interval then None
      else if IdleIncrement * n <= interval + ExtraGrace then Some(Request)
      else Some(Lost)
  {
    QuietStretch(before, n);
    OneQuieter(before, n);
  }

  /** A silent connection is asked three times before it is given up, if five
      divides the interval, and twice otherwise. */
  lemma AskedBeforeLost(interval: int, before: seq<Outcome>)
    requires interval > 0 && (before == [] || before[|before| - 1] == Fired(0))
    ensures var n := Patience(interval);
      && n == (interval + 10) / 5 + 1
      && Due(interval, 0, before + Silence(n)) == Some(Lost)
      && (forall k | 0 < k < n :: !Final(Due(interval, 0, before + Silence(k))))
      && Made(interval, before + Silence(n)) == Made(interval, before) + if interval % 5 == 0 then 3 else 2
  {
    hide Due, Made;
    var n := Patience(interval);
    DueInSilence(interval, before, n);
    StretchRequests(interval, before, n);
    forall k | 0 < k < n ensures !Final(Due(interval, 0, before + Silence(k))) { DueInSilence(interval, before, k); }
  }
}
