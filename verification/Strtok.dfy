/** strtok with the delimiter ",", as section 7.24.5.8 of ISO C11 has it. */
module Strtok {

  const Comma := ','

  /** The fields between the commas, empty ones included. */
  function Split(s: string): (fields: seq<string>)
    ensures fields != []
    decreases |s|
  {
    if s == [] then [""]
    else if s[0] == Comma then [""] + Split(s[1..])
    else var rest := Split(s[1..]); [[s[0]] + rest[0]] + rest[1..]
  }

  function NonEmpty(fields: seq<string>): seq<string> {
    if fields == [] then []
    else (if fields[0] == "" then [] else [fields[0]]) + NonEmpty(fields[1..])
  }

  /** The tokens that successive calls return: the fields that are not empty. */
  function Tokens(s: string): seq<string> {
    NonEmpty(Split(s))
  }

  lemma {:induction false} FirstField(s: string, n: nat)
    requires n <= |s| && forall k | 0 <= k < n :: s[k] != Comma
    requires n == |s| || s[n] == Comma
    ensures Split(s) == [s[..n]] + (if n == |s| then [] else Split(s[n + 1..]))
    decreases n
  {
    if n == 0 {
      assert s[..0] == "";
    } else {
      FirstField(s[1..], n - 1);
      assert s[..n] == [s[0]] + s[1..][..n - 1];
      if n < |s| { assert s[1..][n - 1 + 1..] == s[n + 1..]; }
    }
  }

  lemma NonEmptyFirst(field: string, rest: seq<string>)
    ensures NonEmpty([field] + rest) == (if field == "" then [] else [field]) + NonEmpty(rest)
  {
    assert ([field] + rest)[1..] == rest;
  }

  /** The tokens of s, when its first comma is at n, or when it has none. */
  lemma FirstToken(s: string, n: nat)
    requires n <= |s| && forall k | 0 <= k < n :: s[k] != Comma
    requires n == |s| || s[n] == Comma
    ensures Tokens(s) == (if n == 0 then [] else [s[..n]]) + (if n == |s| then [] else Tokens(s[n + 1..]))
  {
    FirstField(s, n);
    NonEmptyFirst(s[..n], if n == |s| then [] else Split(s[n + 1..]));
    assert n == 0 <==> s[..n] == "";
  }

  lemma {:induction false} SkipCommas(s: string, n: nat)
    requires n <= |s| && forall k | 0 <= k < n :: s[k] == Comma
    ensures Tokens(s[n..]) == Tokens(s)
    decreases n
  {
    if n > 0 {
      FirstToken(s, 0);
      assert s[0 + 1..] == s[1..];
      SkipCommas(s[1..], n - 1);
      assert s[1..][n - 1..] == s[n..];
    } else {
      assert s[0..] == s;
    }
  }

  lemma NoTokens()
    ensures Tokens("") == []
  {
    FirstToken("", 0);
  }

  // The token s[first..last] after the commas s[pos..first].
  lemma TokenAt(s: string, pos: nat, first: nat, last: nat)
    requires pos <= first < last <= |s| && forall k | pos <= k < first :: s[k] == Comma
    requires (forall k | first <= k < last :: s[k] != Comma) && (last == |s| || s[last] == Comma)
    ensures Tokens(s[pos..]) == [s[first..last]] + Tokens(s[if last < |s| then last + 1 else last..])
  {
    hide Tokens;
    SkipCommas(s[pos..], first - pos);
    var rest := s[first..];
    assert s[pos..][first - pos..] == rest;
    FirstToken(rest, last - first);
    assert rest[..last - first] == s[first..last];
    if last < |s| {
      assert rest[last - first + 1..] == s[last + 1..];
    } else {
      assert s[last..] == "";
      NoTokens();
    }
  }

  /** A call that starts at s[pos..]: the next token, and where to go on; or
      none.  The comma after the token is overwritten, and passed over. */
  method NextToken(s: string, pos: nat) returns (found: bool, token: string, next: nat)
    requires pos <= |s|
    ensures pos <= next <= |s|
    ensures found ==> next > pos && Tokens(s[pos..]) == [token] + Tokens(s[next..])
    ensures !found ==> Tokens(s[pos..]) == []
  {
    hide Tokens;
    var first := pos;
    while first < |s| && s[first] == Comma
      invariant pos <= first <= |s| && forall k | pos <= k < first :: s[k] == Comma
    {
      first := first + 1;
    }
    if first == |s| {
      SkipCommas(s[pos..], first - pos);
      assert s[pos..][first - pos..] == "";
      NoTokens();
      return false, "", first;
    }
    next := first;
    while next < |s| && s[next] != Comma
      invariant first <= next <= |s| && forall k | first <= k < next :: s[k] != Comma
    {
      next := next + 1;
    }
    TokenAt(s, pos, first, next);
    found, token := true, s[first..next];
    if next < |s| {
      next := next + 1;
    }
  }

  function Join(ts: seq<string>): string {
    if ts == [] then "" else if |ts| == 1 then ts[0] else ts[0] + [Comma] + Join(ts[1..])
  }

  predicate Plain(t: string) {
    t != "" && Comma !in t
  }

  /** Joining proper fields and tokenising gives them back. */
  lemma {:induction false} JoinTokens(ts: seq<string>)
    requires forall t | t in ts :: Plain(t)
    ensures Tokens(Join(ts)) == ts
  {
    hide Tokens;
    if ts == [] {
      NoTokens();
    } else {
      var s := Join(ts);
      var n := |ts[0]|;
      assert Plain(ts[0]) && s[..n] == ts[0];
      forall k | 0 <= k < n ensures s[k] != Comma { assert s[k] == ts[0][k]; }
      FirstToken(s, n);
      if |ts| > 1 {
        JoinTokens(ts[1..]);
        assert s[n + 1..] == Join(ts[1..]);
      }
    }
  }
}
