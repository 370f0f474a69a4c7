/** The ids that the providers give their items: every one of them is read back by the joins, and nothing else is. */
module NativeIDs {
  import opened Model
  import Hub = GitHub
  import Lab = GitLab

  /** Decimal digits, at least one: how both providers write an item's number. */
  predicate IsNumber(s: string) {
    s != [] && forall i :: 0 <= i < |s| ==> '0' <= s[i] <= '9'
  }

  function PullID(owner: string, name: string, number: string): string {
    owner + "/" + name + "#" + number
  }

  function MergeRequestID(path: string, number: string): string {
    path + "!" + number
  }

  // ---- scanning ----

  lemma {:induction false} DigitsAre(s: string, from: nat, to: nat)
    requires from <= to <= |s|
    ensures AllDigits(s, from, to) <==> forall i :: from <= i < to ==> '0' <= s[i] <= '9'
  {
    if from < to {
      DigitsAre(s, from, to - 1);
    }
  }

  lemma {:induction false} LastIndexIsLast(s: string, c: char, n: nat)
    requires n <= |s|
    ensures forall i :: LastIndex(s, c, n) < i < n ==> s[i] != c
  {
    if n > 0 && s[n - 1] != c {
      LastIndexIsLast(s, c, n - 1);
    }
  }

  lemma LastIndexFinds(s: string, c: char, n: nat, i: nat)
    requires i < n <= |s| && s[i] == c && forall j :: i < j < n ==> s[j] != c
    ensures LastIndex(s, c, n) == i
  {
    LastIndexIsLast(s, c, n);
  }

  // ---- GitHub ----

  /** Every id that owner, repository name and number make is one that the join reads. */
  lemma PullIDsParse(owner: string, name: string, number: string)
    requires IsNumber(number)
    ensures Hub.Parseable(PullID(owner, name, number))
  {
    var nid, h := PullID(owner, name, number), |owner| + 1 + |name|;
    assert nid[h] == '#' && nid[|owner|] == '/';
    assert nid[h + 1..] == number;
    assert forall j :: h < j < |nid| ==> nid[j] == number[j - h - 1];
    LastIndexFinds(nid, '#', |nid|, h);
    DigitsAre(nid, h + 1, |nid|);
    LastIndexIsLast(nid, '/', h);
  }

  /** And an id that the join reads is made so. */
  lemma ParseableIsPullID(nid: string) returns (owner: string, name: string, number: string)
    requires Hub.Parseable(nid)
    ensures nid == PullID(owner, name, number) && IsNumber(number)
  {
    var h := LastIndex(nid, '#', |nid|);
    var s := LastIndex(nid, '/', h);
    DigitsAre(nid, h + 1, |nid|);
    owner, name, number := nid[..s], nid[s + 1..h], nid[h + 1..];
    assert nid == nid[..s] + [nid[s]] + nid[s + 1..h] + [nid[h]] + nid[h + 1..];
  }

  // ---- GitLab ----

  /** A number with an optional sign, which is what strconv.Atoi takes. */
  predicate IsSigned(s: string) {
    IsNumber(s) || (s != [] && s[0] in {'-', '+'} && IsNumber(s[1..]))
  }

  lemma IntsAreSigned(s: string, from: nat, to: nat)
    requires from <= to <= |s|
    ensures Lab.IsInt(s, from, to) <==> IsSigned(s[from..to])
  {
    var part := s[from..to];
    var first := if from < to && (s[from] == '-' || s[from] == '+') then from + 1 else from;
    if first <= to {
      DigitsAre(s, first, to);
      assert forall i :: first <= i < to ==> s[i] == s[first..to][i - first];
      assert s[first..to] == part[first - from..];
    }
  }

  /** Of the ids that a path and a number make, the join reads those whose path is no bare number, as no path with a slash is. */
  lemma MergeRequestIDsParse(path: string, number: string)
    requires IsSigned(number)
    ensures Lab.Parseable(MergeRequestID(path, number)) <==> !IsSigned(path)
    ensures '/' in path ==> !IsSigned(path)
  {
    var nid, b := MergeRequestID(path, number), |path|;
    assert nid[b] == '!' && nid[0..b] == path && nid[b + 1..|nid|] == number;
    assert forall j :: b < j < |nid| ==> nid[j] == number[j - b - 1];
    assert forall j :: 1 <= j < |number| ==> number[j] == number[1..][j - 1];
    LastIndexFinds(nid, '!', |nid|, b);
    IntsAreSigned(nid, b + 1, |nid|);
    IntsAreSigned(nid, 0, b);
    SlashIsNoNumber(path);
  }

  lemma SlashIsNoNumber(path: string)
    ensures '/' in path ==> !IsSigned(path)
  {
    if '/' in path && path != [] {
      assert path[0] == '/' || '/' in path[1..];
    }
  }

  /** And the join reads no other id. */
  lemma ParseableIsMergeRequestID(nid: string) returns (path: string, number: string)
    requires Lab.Parseable(nid)
    ensures nid == MergeRequestID(path, number) && IsSigned(number) && !IsSigned(path)
  {
    var b := LastIndex(nid, '!', |nid|);
    path, number := nid[0..b], nid[b + 1..|nid|];
    assert nid == nid[0..b] + [nid[b]] + nid[b + 1..|nid|];
    IntsAreSigned(nid, b + 1, |nid|);
    IntsAreSigned(nid, 0, b);
  }
}
