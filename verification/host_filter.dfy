/** The search filter of the host browser: Python's `text in hostentry` on
    strings, and the ordered selection of allow-listed host names it induces. */
module HostFilter {

  /** `q` occurs in `s` starting at index `i`. */
  ghost predicate OccursAt(q: string, s: string, i: int)
  {
    0 <= i && i + |q| <= |s| && s[i..i + |q|] == q
  }

  /** Reference meaning of Python's substring test `q in s`: some contiguous
      block of `s` equals `q` (case-sensitive; the empty string occurs everywhere). */
  ghost predicate IsSubstring(q: string, s: string)
  {
    exists i :: OccursAt(q, s, i)
  }

  /** An occurrence in `s` is either at its first index or an occurrence in its tail. */
  lemma ShiftOccurrence(q: string, s: string)
    requires |s| > 0
    ensures IsSubstring(q, s) <==> OccursAt(q, s, 0) || IsSubstring(q, s[1..])
  {
    if IsSubstring(q, s) && !OccursAt(q, s, 0) {
      var i :| OccursAt(q, s, i);
      assert s[1..][i - 1..i - 1 + |q|] == s[i..i + |q|];
      assert OccursAt(q, s[1..], i - 1);
    }
    if IsSubstring(q, s[1..]) {
      var j :| OccursAt(q, s[1..], j);
      assert s[j + 1..j + 1 + |q|] == s[1..][j..j + |q|];
      assert OccursAt(q, s, j + 1);
    }
  }

  /** The substring test itself, `q in s`. */
  function Contains(q: string, s: string): (b: bool)
    ensures b <==> IsSubstring(q, s)
    decreases |s|
  {
    if |q| > |s| then
      false
    else if s[..|q|] == q then
      assert OccursAt(q, s, 0);
      true
    else
      ShiftOccurrence(q, s);
      Contains(q, s[1..])
  }

  /** The empty query occurs in every host name. */
  lemma EmptyQueryMatches(s: string)
    ensures Contains("", s)
  {
    assert OccursAt("", s, 0);
  }

  /** The host names of `hosts` that contain `q`, in allow-list order. */
  function Filter(q: string, hosts: seq<string>): (r: seq<string>)
    ensures |r| <= |hosts|
    ensures forall h :: h in r ==> h in hosts && Contains(q, h)
  {
    if hosts == [] then []
    else if Contains(q, hosts[0]) then [hosts[0]] + Filter(q, hosts[1..])
    else Filter(q, hosts[1..])
  }

  /** `a` is `b` with some elements dropped and the rest kept in order. */
  ghost predicate IsSubsequence(a: seq<string>, b: seq<string>)
    decreases |b|
  {
    if a == [] then true
    else if b == [] then false
    else (a[0] == b[0] && IsSubsequence(a[1..], b[1..])) || IsSubsequence(a, b[1..])
  }

  /** Filtering distributes over concatenation of host lists. */
  lemma {:induction false} FilterAppend(q: string, a: seq<string>, b: seq<string>)
    ensures Filter(q, a + b) == Filter(q, a) + Filter(q, b)
    decreases |a|
  {
    if a != [] {
      assert (a + b)[0] == a[0];
      assert (a + b)[1..] == a[1..] + b;
      FilterAppend(q, a[1..], b);
    } else {
      assert a + b == b;
    }
  }

  /** Every matching allow-listed host is shown. */
  lemma {:induction false} FilterComplete(q: string, hosts: seq<string>, h: string)
    requires h in hosts && Contains(q, h)
    ensures h in Filter(q, hosts)
    decreases |hosts|
  {
    if hosts[0] != h {
      assert h in hosts[1..];
      FilterComplete(q, hosts[1..], h);
    }
  }

  /** A host name is shown iff it is allow-listed and contains the query. */
  lemma {:induction false} FilterMembership(q: string, hosts: seq<string>, h: string)
    ensures h in Filter(q, hosts) <==> h in hosts && Contains(q, h)
  {
    if h in hosts && Contains(q, h) {
      FilterComplete(q, hosts, h);
    }
  }

  /** Each matching host name is shown exactly as often as it is allow-listed,
      and a non-matching one never. */
  lemma {:induction false} FilterCount(q: string, hosts: seq<string>, h: string)
    ensures multiset(Filter(q, hosts))[h] == if Contains(q, h) then multiset(hosts)[h] else 0
    decreases |hosts|
  {
    if hosts != [] {
      assert hosts == [hosts[0]] + hosts[1..];
      FilterCount(q, hosts[1..], h);
    }
  }

  /** The shown list keeps the allow-list's relative order. */
  lemma {:induction false} FilterIsSubsequence(q: string, hosts: seq<string>)
    ensures IsSubsequence(Filter(q, hosts), hosts)
    decreases |hosts|
  {
    if hosts != [] {
      FilterIsSubsequence(q, hosts[1..]);
      var r := Filter(q, hosts);
      if Contains(q, hosts[0]) {
        assert r[0] == hosts[0] && r[1..] == Filter(q, hosts[1..]);
      } else {
        if r != [] {
          assert IsSubsequence(r, hosts[1..]);
        }
      }
    }
  }

  /** A list whose every name matches is shown unchanged. */
  lemma {:induction false} FilterAllMatching(q: string, hosts: seq<string>)
    requires forall h :: h in hosts ==> Contains(q, h)
    ensures Filter(q, hosts) == hosts
    decreases |hosts|
  {
    if hosts != [] {
      assert hosts[0] in hosts;
      assert forall h :: h in hosts[1..] ==> h in hosts;
      FilterAllMatching(q, hosts[1..]);
    }
  }

  /** An empty query shows the whole allow-list unchanged. */
  lemma {:induction false} EmptyQueryShowsAll(hosts: seq<string>)
    ensures Filter("", hosts) == hosts
  {
    forall h | h in hosts
      ensures Contains("", h)
    {
      EmptyQueryMatches(h);
    }
    FilterAllMatching("", hosts);
  }

  /** Filtering twice with the same query changes nothing more. */
  lemma {:induction false} FilterIdempotent(q: string, hosts: seq<string>)
    ensures Filter(q, Filter(q, hosts)) == Filter(q, hosts)
  {
    FilterAllMatching(q, Filter(q, hosts));
  }

  /** A name that lacks the query's first character does not contain the query. */
  lemma FirstCharAbsent(q: string, s: string)
    requires |q| > 0 && q[0] !in s
    ensures !Contains(q, s)
  {
  }

  /** Typing "db" over db1, db2 and web1 leaves db1 and db2, in that order. */
  lemma DbQueryExample()
    ensures Filter("db", ["db1.internal", "db2.internal", "web1.internal"]) ==
              ["db1.internal", "db2.internal"]
  {
    assert "db1.internal"[..2] == "db";
    assert "db2.internal"[..2] == "db";
    FirstCharAbsent("db", "web1.internal");
    var hosts := ["db1.internal", "db2.internal", "web1.internal"];
    assert hosts[1..] == ["db2.internal", "web1.internal"];
    assert hosts[1..][1..] == ["web1.internal"];
  }
}
