/** The cache key of a triple (src/plugin/service/ServicePlugin.cpp, `hasher`). */
module Hasher {
  import opened Decimal
  import opened Translator

  const SEPARATOR: char := 1 as char

  function Hash(key: RequestData): string {
    key.client + key.user + key.privilege + [SEPARATOR]
    + ToString(|key.client|) + [SEPARATOR]
    + ToString(|key.user|) + [SEPARATOR]
    + ToString(|key.privilege|)
  }

  lemma NoSeparatorAfter(x: string, n: nat)
    ensures var s := x + [SEPARATOR] + ToString(n);
      forall i | |x| < i < |s| :: s[i] != SEPARATOR
  {
    assert forall i | 0 <= i < |ToString(n)| :: IsDigit(ToString(n)[i]);
  }

  /** The last separator can be found again, whatever stands before it. */
  lemma SplitAtLast(x: string, n: nat, x': string, n': nat)
    requires x + [SEPARATOR] + ToString(n) == x' + [SEPARATOR] + ToString(n')
    ensures x == x' && n == n'
  {
    var s, d, d' := x + [SEPARATOR] + ToString(n), ToString(n), ToString(n');
    NoSeparatorAfter(x, n);
    NoSeparatorAfter(x', n');
    assert s[|x|] == s[|x'|] == SEPARATOR;
    assert |x| == |x'|;
    assert s[..|x|] == x && s[..|x|] == x';
    assert s[|x| + 1..] == d && s[|x| + 1..] == d';
    ToStringInjective(n, n');
  }

  /** No two triples share a cache key: the three lengths are read off from the right, and then
      cut the concatenation, whatever characters it contains. */
  lemma HashInjective(a: RequestData, b: RequestData)
    requires Hash(a) == Hash(b)
    ensures a == b
  {
    var bodyA, bodyB := a.client + a.user + a.privilege, b.client + b.user + b.privilege;
    var a1 := bodyA + [SEPARATOR] + ToString(|a.client|);
    var b1 := bodyB + [SEPARATOR] + ToString(|b.client|);
    SplitAtLast(a1 + [SEPARATOR] + ToString(|a.user|), |a.privilege|,
                b1 + [SEPARATOR] + ToString(|b.user|), |b.privilege|);
    SplitAtLast(a1, |a.user|, b1, |b.user|);
    SplitAtLast(bodyA, |a.client|, bodyB, |b.client|);
    SplitBody(a, b);
  }

  lemma SplitBody(a: RequestData, b: RequestData)
    requires a.client + a.user + a.privilege == b.client + b.user + b.privilege
    requires |a.client| == |b.client| && |a.user| == |b.user|
    ensures a == b
  {
    var s, i, j := a.client + a.user + a.privilege, |a.client|, |a.client| + |a.user|;
    assert s[..i] == a.client && s[i..j] == a.user && s[j..] == a.privilege;
    assert s[..i] == b.client && s[i..j] == b.user && s[j..] == b.privilege;
  }
}
