/**
  The string operations the exporter relies on: Go's `strings.ReplaceAll` with an
  empty replacement, used both to strip spaces from a reading and to peel the HTML
  wrapper off the device's JSON page, and the prefix test behind the URL check.
*/
module Strings {

  /** `p` occurs in `s` starting at index `i`. */
  predicate Occurs(s: string, p: string, i: int) {
    0 <= i && i + |p| <= |s| && s[i..i + |p|] == p
  }

  predicate Contains(s: string, p: string) {
    exists i | 0 <= i <= |s| :: Occurs(s, p, i)
  }

  predicate StartsWith<T(==)>(s: seq<T>, p: seq<T>) {
    |p| <= |s| && s[..|p|] == p
  }

  /**
    `strings.ReplaceAll(s, p, "")`: scans left to right and drops every
    non-overlapping occurrence of `p`. An empty `p` leaves `s` as it is, as Go
    does when both the pattern and the replacement are empty.
  */
  function RemoveAll(s: string, p: string): (r: string)
    ensures |r| <= |s|
    decreases |s|
  {
    if |p| == 0 || |s| < |p| then s
    else if s[..|p|] == p then RemoveAll(s[|p|..], p)
    else [s[0]] + RemoveAll(s[1..], p)
  }

  /** Every occurrence of `c` filtered out of `s`; the other characters keep their order. */
  function Without(s: string, c: char): string {
    if s == [] then [] else (if s[0] == c then [] else [s[0]]) + Without(s[1..], c)
  }

  /** A prefix of `s` in which `p` does not start anywhere is copied through unchanged. */
  lemma {:induction false} RemoveAllSkips(s: string, p: string, n: nat)
    requires |p| > 0 && n <= |s|
    requires forall i :: 0 <= i < n ==> !Occurs(s, p, i)
    ensures RemoveAll(s, p) == s[..n] + RemoveAll(s[n..], p)
  {
    if n == 0 {
      assert s[..0] + s[0..] == s;
    } else if |s| < |p| {
      assert s[..n] + s[n..] == s;
    } else {
      assert !Occurs(s, p, 0);
      assert s[..|p|] != p;
      forall i | 0 <= i < n - 1
        ensures !Occurs(s[1..], p, i)
      {
        assert !Occurs(s, p, i + 1);
        if i + |p| <= |s| - 1 {
          assert s[1..][i..i + |p|] == s[i + 1..i + 1 + |p|];
        }
      }
      RemoveAllSkips(s[1..], p, n - 1);
      assert s[1..][..n - 1] == s[1..n];
      assert s[1..][n - 1..] == s[n..];
      assert [s[0]] + s[1..n] == s[..n];
    }
  }

  /** A string in which `p` does not occur comes back unchanged. */
  lemma RemoveAllAbsent(s: string, p: string)
    requires !Contains(s, p)
    ensures RemoveAll(s, p) == s
  {
    if |p| > 0 {
      RemoveAllSkips(s, p, |s|);
      assert s[..|s|] == s;
    }
  }

  /** A leading occurrence of `p` is dropped and the scan resumes right after it. */
  lemma RemoveAllLeading(p: string, t: string)
    requires |p| > 0
    ensures RemoveAll(p + t, p) == RemoveAll(t, p)
  {
  }

  /**
    `p` cannot start inside `s` and run on into `q`: no proper suffix of `p` is
    a prefix of `q`, and `p` does not occur in `s` itself. Then removing `p`
    from `s + q` copies `s` through and goes on with `q`.
  */
  lemma RemoveAllBefore(s: string, q: string, p: string)
    requires |p| > 0 && !Contains(s, p)
    requires forall k :: 0 < k < |p| ==> !StartsWith(q, p[k..])
    ensures RemoveAll(s + q, p) == s + RemoveAll(q, p)
  {
    var t := s + q;
    forall i | 0 <= i < |s|
      ensures !Occurs(t, p, i)
    {
      if i + |p| <= |s| {
        assert !Occurs(s, p, i);
        assert t[i..i + |p|] == s[i..i + |p|];
      } else if i + |p| <= |t| {
        var k := |s| - i;
        assert !StartsWith(q, p[k..]);
        assert t[i..i + |p|][k..] == q[..|p| - k];
      }
    }
    RemoveAllSkips(t, p, |s|);
    assert t[..|s|] == s && t[|s|..] == q;
  }

  /** Removing a one-character pattern is filtering that character out. */
  lemma {:induction false} RemoveCharIsWithout(s: string, c: char)
    ensures RemoveAll(s, [c]) == Without(s, c)
  {
    if s != [] {
      RemoveCharIsWithout(s[1..], c);
      assert s[..1] == [s[0]];
    }
  }

  /** No `c` is left after filtering, and every other character keeps its count. */
  lemma {:induction false} WithoutCounts(s: string, c: char)
    ensures multiset(Without(s, c)) == multiset(s)[c := 0]
  {
    if s != [] {
      WithoutCounts(s[1..], c);
      assert s == [s[0]] + s[1..];
      assert multiset(s) == multiset([s[0]]) + multiset(s[1..]);
    }
  }

  /** Filtering a string that has no `c` changes nothing. */
  lemma {:induction false} WithoutAbsent(s: string, c: char)
    requires c !in s
    ensures Without(s, c) == s
  {
    if s != [] {
      assert s[0] != c;
      WithoutAbsent(s[1..], c);
      assert [s[0]] + s[1..] == s;
    }
  }

  lemma WithoutIdempotent(s: string, c: char)
    ensures Without(Without(s, c), c) == Without(s, c)
  {
    WithoutCounts(s, c);
    assert multiset(Without(s, c))[c] == 0;
    WithoutAbsent(Without(s, c), c);
  }
}
