/**
  The text of port mappings: numbers, addresses, the token patterns with their order of alternatives,
  and what it means for a text to be an address or a port.
*/
module PortText {
  import opened Replies

  predicate IsDigit(c: char) {
    '0' <= c <= '9'
  }

  predicate AllDigits(s: string) {
    forall i :: 0 <= i < |s| ==> IsDigit(s[i])
  }

  function Digit(c: char): nat
    requires IsDigit(c)
  {
    c as int - '0' as int
  }

  /** The number a digit string denotes. */
  function Value(s: string): nat
    requires AllDigits(s)
  {
    if s == "" then 0 else 10 * Value(s[..|s| - 1]) + Digit(s[|s| - 1])
  }

  /** The decimal text of a number. */
  function Decimal(n: nat): (s: string)
    ensures AllDigits(s) && s != "" && Value(s) == n && (|s| > 1 ==> s[0] != '0')
  {
    var last := ['0' + (n % 10) as char];
    if n < 10 then
      assert last[..0] == "";
      last
    else
      var s := Decimal(n / 10) + last;
      assert s[..|s| - 1] == Decimal(n / 10);
      s
  }

  predicate IsPort(s: string) {
    s != "" && AllDigits(s) && 1 <= Value(s) <= 65535
  }

  predicate Octet(s: string) {
    1 <= |s| <= 3 && AllDigits(s) && Value(s) <= 255
  }

  /** `k` octets each followed by a dot, and one more. */
  ghost predicate Dotted(s: string, k: nat) {
    if k == 0 then Octet(s)
    else exists c :: 0 < c < |s| && s[c] == '.' && Octet(s[..c]) && Dotted(s[c + 1..], k - 1)
  }

  ghost predicate IsAddress(s: string) {
    Dotted(s, 3)
  }

  /** Length of the run of digits a text starts with. */
  function DigitRun(s: string): (n: nat)
    ensures n <= |s| && AllDigits(s[..n]) && (n < |s| ==> !IsDigit(s[n]))
  {
    if s == "" || !IsDigit(s[0]) then 0
    else
      var n := DigitRun(s[1..]);
      assert forall i :: 0 < i <= n ==> s[i] == s[1..][i - 1];
      n + 1
  }

  // ---- the address pattern

  predicate DigitAt(s: string, i: nat) {
    i < |s| && IsDigit(s[i])
  }

  /** The lengths the octet pattern can match, in the order in which its alternatives are tried. */
  function Candidates(s: string): seq<nat> {
    (if |s| >= 3 && s[0] == '2' && s[1] == '5' && '0' <= s[2] <= '5' then [3] else [])
    + (if |s| >= 3 && s[0] == '2' && '0' <= s[1] <= '4' && IsDigit(s[2]) then [3] else [])
    + (if |s| >= 1 && '0' <= s[0] <= '1' && DigitAt(s, 1) && DigitAt(s, 2) then [3] else [])
    + (if |s| >= 1 && '0' <= s[0] <= '1' && DigitAt(s, 1) then [2] else [])
    + (if DigitAt(s, 0) && DigitAt(s, 1) then [2] else [])
    + (if DigitAt(s, 0) then [1] else [])
  }

  /** Length of the match of `k` dotted octets and one more: the first choice that works. */
  function MatchAddress(s: string, k: nat): Option<nat>
    decreases k, 1, 0
  {
    if k == 0 then (if Candidates(s) == [] then None else Some(Candidates(s)[0]))
    else FirstMatch(s, Candidates(s), k)
  }

  function FirstMatch(s: string, choices: seq<nat>, k: nat): Option<nat>
    requires k > 0
    decreases k, 0, |choices|
  {
    if choices == [] then None
    else
      var c := choices[0];
      var tail := if c < |s| && s[c] == '.' then MatchAddress(s[c + 1..], k - 1) else None;
      if tail.Some? then Some(c + 1 + tail.value) else FirstMatch(s, choices[1..], k)
  }

  lemma SmallValues(s: string)
    requires AllDigits(s) && 1 <= |s| <= 3
    ensures |s| == 1 ==> Value(s) == Digit(s[0])
    ensures |s| == 2 ==> Value(s) == 10 * Digit(s[0]) + Digit(s[1])
    ensures |s| == 3 ==> Value(s) == 100 * Digit(s[0]) + 10 * Digit(s[1]) + Digit(s[2])
  {
    var t := s[..|s| - 1];
    assert AllDigits(t);
    if |s| >= 2 {
      assert t[|t| - 1] == s[|s| - 2];
      var u := t[..|t| - 1];
      if |s| == 3 {
        assert u[..0] == "" && u[0] == s[0];
      }
    }
  }

  /** Every choice of the pattern is an octet. */
  lemma CandidateIsOctet(s: string, c: nat)
    requires c in Candidates(s)
    ensures c <= |s| && Octet(s[..c])
  {
    assert 1 <= c <= 3 && c <= |s|;
    assert AllDigits(s[..c]);
    SmallValues(s[..c]);
  }

  /** An octet that no further digit follows is the pattern's first choice, so it is consumed whole. */
  lemma OctetIsFirst(s: string, c: nat)
    requires c <= |s| && Octet(s[..c]) && (c < |s| ==> !IsDigit(s[c]))
    ensures Candidates(s) != [] && Candidates(s)[0] == c
  {
    var t := s[..c];
    SmallValues(t);
    assert forall i :: 0 <= i < c ==> s[i] == t[i];
  }

  lemma {:induction false} MatchSound(s: string, k: nat)
    ensures MatchAddress(s, k).Some? ==> MatchAddress(s, k).value <= |s| && Dotted(s[..MatchAddress(s, k).value], k)
    decreases k, 1, 0
  {
    if k == 0 {
      if Candidates(s) != [] {
        CandidateIsOctet(s, Candidates(s)[0]);
      }
    } else {
      FirstSound(s, Candidates(s), k);
    }
  }

  lemma Cut(s: string, c: nat, m: nat)
    requires c + 1 + m <= |s|
    ensures s[..c + 1 + m][..c] == s[..c] && s[..c + 1 + m][c + 1..] == s[c + 1..][..m]
  {
  }

  lemma {:induction false} FirstSound(s: string, choices: seq<nat>, k: nat)
    requires k > 0 && forall c :: c in choices ==> c in Candidates(s)
    ensures FirstMatch(s, choices, k).Some? ==>
      FirstMatch(s, choices, k).value <= |s| && Dotted(s[..FirstMatch(s, choices, k).value], k)
    decreases k, 0, |choices|
  {
    hide Candidates, Octet, MatchAddress;
    if choices != [] {
      var c := choices[0];
      assert c in choices;
      CandidateIsOctet(s, c);
      FirstSound(s, choices[1..], k);
      if c < |s| && s[c] == '.' {
        MatchSound(s[c + 1..], k - 1);
        var tail := MatchAddress(s[c + 1..], k - 1);
        if tail.Some? {
          Cut(s, c, tail.value);
          assert s[..c + 1 + tail.value][c] == '.';
        }
      }
    }
  }

  lemma FirstChoice(s: string, c: nat, m: nat, k: nat)
    requires k > 0 && Candidates(s) != [] && Candidates(s)[0] == c && c < |s| && s[c] == '.'
    requires MatchAddress(s[c + 1..], k - 1) == Some(m)
    ensures MatchAddress(s, k) == Some(c + 1 + m)
  {
    hide Candidates;
  }

  /** An address that no digit follows is matched, and exactly. */
  lemma {:induction false} MatchComplete(s: string, n: nat, k: nat)
    requires n <= |s| && Dotted(s[..n], k) && (n < |s| ==> !IsDigit(s[n]))
    ensures MatchAddress(s, k) == Some(n)
    decreases k
  {
    if k == 0 {
      hide Candidates, Octet, FirstMatch;
      OctetIsFirst(s, n);
    } else {
      hide Candidates, Octet, FirstMatch, MatchAddress, Dotted;
      var c := FirstOctet(s, n, k);
      var m := n - c - 1;
      OctetIsFirst(s, c);
      MatchComplete(s[c + 1..], m, k - 1);
      FirstChoice(s, c, m, k);
    }
  }

  /** An address starts with an octet and a dot, and the rest of it is a shorter one that no digit follows. */
  lemma FirstOctet(s: string, n: nat, k: nat) returns (c: nat)
    requires n <= |s| && k > 0 && Dotted(s[..n], k) && (n < |s| ==> !IsDigit(s[n]))
    ensures 0 < c < n && s[c] == '.' && Octet(s[..c])
    ensures var t := s[c + 1..]; var m := n - c - 1; m <= |t| && Dotted(t[..m], k - 1) && (m < |t| ==> !IsDigit(t[m]))
  {
    hide Octet;
    var t := s[..n];
    c :| 0 < c < |t| && t[c] == '.' && Octet(t[..c]) && Dotted(t[c + 1..], k - 1);
    assert t[..c] == s[..c] && t[c + 1..] == s[c + 1..][..n - c - 1];
  }

  /** A number that no dot follows does not start an address. */
  lemma {:induction false} NumberIsNoAddress(s: string, choices: seq<nat>, k: nat)
    requires k > 0 && (forall c :: c in choices ==> c in Candidates(s))
    requires DigitRun(s) < |s| ==> s[DigitRun(s)] != '.'
    ensures FirstMatch(s, choices, k) == None
    decreases |choices|
  {
    if choices != [] {
      var c := choices[0];
      assert c in choices;
      CandidateIsOctet(s, c);
      if c < |s| && s[c] == '.' {
        RunEnds(s, c);
        assert false;
      }
      NumberIsNoAddress(s, choices[1..], k);
    }
  }

  lemma {:induction false} RunEnds(s: string, c: nat)
    requires c <= |s| && AllDigits(s[..c]) && (c < |s| ==> !IsDigit(s[c]))
    ensures DigitRun(s) == c
  {
  }
}
