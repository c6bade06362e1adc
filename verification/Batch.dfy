/** Creating several machines in one request. */
module Batch {
  import opened Replies
  import opened PortText

  // ---- names

  predicate Alnum(c: char) {
    'a' <= c <= 'z' || '0' <= c <= '9'
  }

  /** The label form of section 2.1 of RFC 1123, without its length limit. */
  predicate ValidName(s: string) {
    && s != "" && Alnum(s[0]) && Alnum(s[|s| - 1])
    && forall i :: 0 <= i < |s| ==> Alnum(s[i]) || s[i] == '-'
  }

  /** Letters, digits and dashes, and a letter or digit at the end. */
  predicate TailMatches(s: string) {
    s != "" && ((|s| == 1 && Alnum(s[0])) || ((Alnum(s[0]) || s[0] == '-') && TailMatches(s[1..])))
  }

  /** The name pattern: a letter or digit, and perhaps such a tail. */
  predicate NameMatches(s: string) {
    s != "" && Alnum(s[0]) && (|s| == 1 || TailMatches(s[1..]))
  }

  lemma {:induction false} TailMeans(s: string)
    ensures TailMatches(s) <==> s != "" && Alnum(s[|s| - 1]) && forall i :: 0 <= i < |s| ==> Alnum(s[i]) || s[i] == '-'
  {
    if |s| > 1 {
      TailMeans(s[1..]);
      assert forall i :: 0 < i < |s| ==> s[i] == s[1..][i - 1];
      assert forall i :: 0 <= i < |s[1..]| ==> s[1..][i] == s[i + 1];
    }
  }

  /** The pattern matches exactly the valid names. */
  lemma NameMatchesMeans(s: string)
    ensures NameMatches(s) <==> ValidName(s)
  {
    if |s| > 1 {
      TailMeans(s[1..]);
      assert forall i :: 0 < i < |s| ==> s[i] == s[1..][i - 1];
      assert forall i :: 0 <= i < |s[1..]| ==> s[1..][i] == s[i + 1];
    }
  }

  method IsValidName(names: seq<string>) returns (valid: bool)
    ensures valid <==> forall i :: 0 <= i < |names| ==> ValidName(names[i])
  {
    valid := true;
    for i := 0 to |names|
      invariant valid <==> forall j :: 0 <= j < i ==> ValidName(names[j])
    {
      NameMatchesMeans(names[i]);
      valid := valid && NameMatches(names[i]);
    }
  }

  /** A number in at least two digits. */
  function TwoDigits(n: nat): (s: string)
    ensures AllDigits(s) && Value(s) == n && |s| >= 2 && (|s| > 2 ==> s[0] != '0')
  {
    if n < 10 then
      var s := "0" + Decimal(n);
      LeadingZero(Decimal(n));
      OneDigit(n);
      s
    else
      OneDigitIsSmall(Decimal(n));
      Decimal(n)
  }

  lemma OneDigit(n: nat)
    requires n < 10
    ensures |Decimal(n)| == 1
  {
  }

  lemma OneDigitIsSmall(s: string)
    requires AllDigits(s)
    ensures |s| == 1 ==> Value(s) < 10
  {
    if |s| == 1 {
      assert s[..0] == "";
    }
  }

  lemma {:induction false} LeadingZero(s: string)
    requires AllDigits(s)
    ensures AllDigits("0" + s) && Value("0" + s) == Value(s)
  {
    var t := "0" + s;
    assert forall i :: 0 < i < |t| ==> t[i] == s[i - 1];
    if s != "" {
      LeadingZero(s[..|s| - 1]);
      assert t[..|t| - 1] == "0" + s[..|s| - 1];
    } else {
      assert t[..0] == "";
    }
  }

  function MachineName(base: string, i: nat): string {
    base + "-" + TwoDigits(i)
  }

  /** The generated names of a valid base name are valid, for any count. */
  lemma GeneratedNamesValid(base: string, i: nat)
    requires ValidName(base)
    ensures ValidName(MachineName(base, i))
  {
    hide TwoDigits;
    var s, t := MachineName(base, i), TwoDigits(i);
    assert s[0] == base[0] && s[|s| - 1] == t[|t| - 1];
    forall k | 0 <= k < |s| ensures Alnum(s[k]) || s[k] == '-' {
      if k < |base| {
        assert s[k] == base[k];
      } else if k > |base| {
        assert s[k] == t[k - |base| - 1];
      }
    }
  }

  /** Different numbers give different names. */
  lemma GeneratedNamesDistinct(base: string, i: nat, j: nat)
    requires MachineName(base, i) == MachineName(base, j)
    ensures i == j
  {
    hide TwoDigits;
    var n := |base + "-"|;
    assert MachineName(base, i)[n..] == TwoDigits(i);
    assert MachineName(base, j)[n..] == TwoDigits(j);
  }

  // ---- creation

  datatype Reply = Created | ConflictReply | ServerError

  /** The machines after the first `k` of the batch were added. */
  function WithFirst<Spec>(vms: map<string, Spec>, base: string, spec: Spec, k: nat): map<string, Spec> {
    if k == 0 then vms else WithFirst(vms, base, spec, k - 1)[MachineName(base, k) := spec]
  }

  /** Exactly the first `k` names are added, with the requested spec; everything else is as before. */
  lemma {:induction false} WithFirstMembers<Spec>(vms: map<string, Spec>, base: string, spec: Spec, k: nat, name: string)
    ensures name in WithFirst(vms, base, spec, k) <==> name in vms || exists i :: 1 <= i <= k && name == MachineName(base, i)
    ensures name in WithFirst(vms, base, spec, k) ==>
      WithFirst(vms, base, spec, k)[name] ==
        if exists i :: 1 <= i <= k && name == MachineName(base, i) then spec else vms[name]
  {
    hide MachineName;
    if k > 0 {
      WithFirstMembers(vms, base, spec, k - 1, name);
    }
  }

  class Server<Spec(==)> {
    var vms: map<string, Spec>

    constructor ()
      ensures vms == map[]
    {
      vms := map[];
    }

    method Create(name: string, spec: Spec, o: Outcome) returns (reply: Reply)
      modifies this
      ensures if o.Rejected? then vms == old(vms) && reply == ServerError
              else if name in old(vms) then vms == old(vms) && reply == ConflictReply
              else vms == old(vms)[name := spec] && reply == (if o.Lost? then ServerError else Created)
    {
      if o.Rejected? {
        return ServerError;
      }
      if name in vms {
        return ConflictReply;
      }
      vms := vms[name := spec];
      reply := if o.Lost? then ServerError else Created;
    }

    /**
      Success adds exactly the `count` generated machines. A conflict at the k-th name leaves exactly the
      first k - 1 added, and happens at the first name that was taken before. Another error at the k-th
      leaves the first k - 1, or k if the call took effect.
    */
    method InstanceCreateMany(base: string, spec: Spec, count: nat, fates: map<nat, Outcome>) returns (reply: Reply, k: nat)
      modifies this
      ensures reply == Created ==> vms == WithFirst(old(vms), base, spec, count)
      ensures reply == Created ==> forall i :: 1 <= i <= count ==> MachineName(base, i) !in old(vms)
      ensures reply != Created ==> 1 <= k <= count && forall i :: 1 <= i < k ==> MachineName(base, i) !in old(vms)
      ensures reply == ConflictReply ==> MachineName(base, k) in old(vms) && vms == WithFirst(old(vms), base, spec, k - 1)
      ensures reply == ServerError ==>
        vms == WithFirst(old(vms), base, spec, k - 1) || vms == WithFirst(old(vms), base, spec, k)
    {
      hide MachineName;
      k := 1;
      while k <= count
        invariant 1 <= k <= count + 1
        invariant vms == WithFirst(old(vms), base, spec, k - 1)
        invariant forall i :: 1 <= i < k ==> MachineName(base, i) !in old(vms)
      {
        ghost var name := MachineName(base, k);
        WithFirstMembers(old(vms), base, spec, k - 1, name);
        forall i | 1 <= i <= k - 1 ensures MachineName(base, i) != name {
          if MachineName(base, i) == name {
            GeneratedNamesDistinct(base, i, k);
          }
        }
        reply := Create(MachineName(base, k), spec, if k in fates then fates[k] else Accepted);
        if reply != Created {
          return;
        }
        k := k + 1;
      }
      reply := Created;
    }
  }
}
