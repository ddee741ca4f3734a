/** Sequence operations the modelled Python code performs on lists and strings. */
module Seqs {

  /** The negation of a predicate, as one term (so that it can be named twice). */
  function Not<T>(p: T -> bool): T -> bool {
    x => !p(x)
  }

  /** `a` is an order-preserving subsequence of `b`. */
  ghost predicate IsSubseq<T>(a: seq<T>, b: seq<T>)
    decreases |b|
  {
    if b == [] then a == []
    else
      IsSubseq(a, b[..|b| - 1])
      || (a != [] && a[|a| - 1] == b[|b| - 1] && IsSubseq(a[..|a| - 1], b[..|b| - 1]))
  }

  lemma {:induction false} SubseqRefl<T>(a: seq<T>)
    ensures IsSubseq(a, a)
    decreases |a|
  {
    if a != [] {
      SubseqRefl(a[..|a| - 1]);
    }
  }

  lemma {:induction false} SubseqTrans<T>(a: seq<T>, b: seq<T>, c: seq<T>)
    requires IsSubseq(a, b) && IsSubseq(b, c)
    ensures IsSubseq(a, c)
    decreases |c|
  {
    if c == [] {
      assert b == [];
    } else {
      var c' := c[..|c| - 1];
      if IsSubseq(b, c') {
        SubseqTrans(a, b, c');
      } else {
        var b' := b[..|b| - 1];
        assert b != [] && b[|b| - 1] == c[|c| - 1] && IsSubseq(b', c');
        if IsSubseq(a, b') {
          SubseqTrans(a, b', c');
        } else {
          var a' := a[..|a| - 1];
          assert a != [] && a[|a| - 1] == b[|b| - 1] && IsSubseq(a', b');
          SubseqTrans(a', b', c');
        }
      }
    }
  }

  /** A list comprehension `[x for x in s if p(x)]`. */
  function Filter<T>(p: T -> bool, s: seq<T>): (r: seq<T>)
    ensures |r| <= |s|
    decreases |s|
  {
    if s == [] then []
    else
      var r' := Filter(p, s[..|s| - 1]);
      if p(s[|s| - 1]) then r' + [s[|s| - 1]] else r'
  }

  /** The filter keeps exactly the elements that pass, in their order. */
  lemma {:induction false} FilterSpec<T>(p: T -> bool, s: seq<T>)
    ensures forall i :: 0 <= i < |Filter(p, s)| ==> Filter(p, s)[i] in s && p(Filter(p, s)[i])
    ensures forall i :: 0 <= i < |s| && p(s[i]) ==> s[i] in Filter(p, s)
    ensures IsSubseq(Filter(p, s), s)
    decreases |s|
  {
    if s != [] {
      var init, last := s[..|s| - 1], s[|s| - 1];
      assert s == init + [last];
      FilterSpec(p, init);
      var r' := Filter(p, init);
      if p(last) {
        assert (r' + [last])[..|r'|] == r';
      }
    }
  }

  lemma FilterSnoc<T>(p: T -> bool, s: seq<T>, x: T)
    ensures Filter(p, s + [x]) == Filter(p, s) + (if p(x) then [x] else [])
  {
    assert (s + [x])[..|s|] == s;
  }

  lemma {:induction false} FilterConcat<T>(p: T -> bool, a: seq<T>, b: seq<T>)
    ensures Filter(p, a + b) == Filter(p, a) + Filter(p, b)
    decreases |b|
  {
    if b == [] {
      assert a + b == a;
    } else {
      var b', z := b[..|b| - 1], b[|b| - 1];
      assert b == b' + [z];
      assert a + b == (a + b') + [z];
      FilterConcat(p, a, b');
      FilterSnoc(p, a + b', z);
      FilterSnoc(p, b', z);
    }
  }

  lemma {:induction false} FilterAll<T>(p: T -> bool, s: seq<T>)
    requires forall i :: 0 <= i < |s| ==> p(s[i])
    ensures Filter(p, s) == s
    decreases |s|
  {
    if s != [] {
      var init := s[..|s| - 1];
      assert s == init + [s[|s| - 1]];
      FilterAll(p, init);
      FilterSnoc(p, init, s[|s| - 1]);
    }
  }

  /** Two tests that agree on every element filter a list alike. */
  lemma {:induction false} FilterSame<T>(p: T -> bool, q: T -> bool, s: seq<T>)
    requires forall i :: 0 <= i < |s| ==> p(s[i]) == q(s[i])
    ensures Filter(p, s) == Filter(q, s)
    decreases |s|
  {
    if s != [] {
      var init := s[..|s| - 1];
      assert s == init + [s[|s| - 1]];
      FilterSame(p, q, init);
      FilterSnoc(p, init, s[|s| - 1]);
      FilterSnoc(q, init, s[|s| - 1]);
    }
  }

  /** Filtering by `p` and then by `q` is filtering once by a test that is `p` and `q` on every element. */
  lemma {:induction false} FilterTwice<T>(p: T -> bool, q: T -> bool, m: T -> bool, s: seq<T>)
    requires forall i :: 0 <= i < |s| ==> m(s[i]) == (p(s[i]) && q(s[i]))
    ensures Filter(q, Filter(p, s)) == Filter(m, s)
    decreases |s|
  {
    if s != [] {
      var init, last := s[..|s| - 1], s[|s| - 1];
      assert s == init + [last];
      FilterTwice(p, q, m, init);
      FilterSnoc(p, init, last);
      FilterSnoc(m, init, last);
      if p(last) {
        FilterSnoc(q, Filter(p, init), last);
      }
    }
  }

  lemma FilterNone<T>(p: T -> bool, s: seq<T>)
    requires forall i :: 0 <= i < |s| ==> !p(s[i])
    ensures Filter(p, s) == []
  {
  }

  /** The filter of a list starts with the first element that passes. */
  lemma FilterFirst<T>(p: T -> bool, s: seq<T>, i: nat)
    requires i < |s| && p(s[i])
    requires forall j :: 0 <= j < i ==> !p(s[j])
    ensures Filter(p, s) == [s[i]] + Filter(p, s[i + 1..])
  {
    var before, x, after := s[..i], s[i], s[i + 1..];
    SplitAt(s, i);
    FilterConcat(p, before + [x], after);
    FilterNone(p, before);
    FilterSnoc(p, before, x);
  }

  /** Filtering a non-empty list: its head, if it passes, then the filtered rest. */
  lemma FilterCons<T>(p: T -> bool, s: seq<T>)
    requires s != []
    ensures Filter(p, s) == (if p(s[0]) then [s[0]] else []) + Filter(p, s[1..])
  {
    var x := s[0];
    assert s == [x] + s[1..];
    FilterConcat(p, [x], s[1..]);
    assert [x][..0] == [];
  }

  // Slicing identities, kept as separate facts: proving them next to the
  // facts about Filter is much more expensive than proving them alone.

  lemma SplitAt<T>(s: seq<T>, i: nat)
    requires i < |s|
    ensures s == (s[..i] + [s[i]]) + s[i + 1..]
  {
  }

  lemma DropFirst<T>(s: seq<T>, k: nat)
    requires k < |s|
    ensures s[k..] != [] && s[k..][0] == s[k] && s[k..][1..] == s[k + 1..]
  {
  }

  lemma TakeSnoc<T>(s: seq<T>, i: nat)
    requires i < |s|
    ensures s[..i + 1] == s[..i] + [s[i]]
  {
  }

  lemma TakeDrop<T>(s: seq<T>, i: nat)
    requires i <= |s|
    ensures s == s[..i] + s[i..]
  {
  }

  lemma TakeAcross<T>(s: seq<T>, k: nat, n: nat)
    requires k <= n < |s|
    ensures s[..n + 1] == (s[..k] + s[k..n]) + [s[n]]
  {
  }

  lemma DropAcross<T>(s: seq<T>, k: nat, n: nat)
    requires k <= n < |s|
    ensures s[k..] == s[k..n] + ([s[n]] + s[n + 1..])
    ensures s[k..][n - k + 1..] == s[n + 1..]
  {
  }

  /** Python's `list.remove(x)`: drops the first occurrence of `x`. */
  function RemoveFirst<T(==)>(x: T, s: seq<T>): (r: seq<T>)
    ensures x !in s ==> r == s
    ensures x in s ==> |r| == |s| - 1
    ensures IsSubseq(r, s)
  {
    if s == [] then []
    else if s[0] == x then
      assert s == [x] + s[1..];
      SubseqDropFirst(s);
      s[1..]
    else
      var r' := RemoveFirst(x, s[1..]);
      assert s == [s[0]] + s[1..];
      SubseqConsBoth(s[0], r', s[1..]);
      [s[0]] + r'
  }

  /** `list.remove(x)` takes away exactly one `x`: the other elements keep their counts. */
  lemma {:induction false} RemoveFirstCounts<T>(x: T, s: seq<T>)
    requires x in s
    ensures multiset(RemoveFirst(x, s)) == multiset(s) - multiset{x}
  {
    assert s == [s[0]] + s[1..];
    if s[0] != x {
      RemoveFirstCounts(x, s[1..]);
      assert RemoveFirst(x, s) == [s[0]] + RemoveFirst(x, s[1..]);
    }
  }

  lemma {:induction false} SubseqDropFirst<T>(s: seq<T>)
    requires s != []
    ensures IsSubseq(s[1..], s)
    decreases |s|
  {
    if |s| == 1 {
      assert IsSubseq(s[1..], s[..0]);
    } else {
      var init := s[..|s| - 1];
      SubseqDropFirst(init);
      assert init[1..] == s[1..][..|s[1..]| - 1];
    }
  }

  lemma {:induction false} SubseqConsBoth<T>(x: T, a: seq<T>, b: seq<T>)
    requires IsSubseq(a, b)
    ensures IsSubseq([x] + a, [x] + b)
    decreases |b|
  {
    if b == [] {
      assert [x] + a == [x];
      assert IsSubseq([x][..0], [x][..0]);
    } else {
      var b' := b[..|b| - 1];
      assert ([x] + b)[..|[x] + b| - 1] == [x] + b';
      if IsSubseq(a, b') {
        SubseqConsBoth(x, a, b');
      } else {
        var a' := a[..|a| - 1];
        SubseqConsBoth(x, a', b');
        assert ([x] + a)[..|[x] + a| - 1] == [x] + a';
      }
    }
  }

  lemma {:induction false} RemoveFirstAfter<T>(x: T, a: seq<T>, b: seq<T>)
    requires x !in a
    ensures RemoveFirst(x, a + b) == a + RemoveFirst(x, b)
    decreases |a|
  {
    if a != [] {
      assert (a + b)[1..] == a[1..] + b;
      RemoveFirstAfter(x, a[1..], b);
      assert a == [a[0]] + a[1..];
    } else {
      assert a + b == b;
    }
  }

  /** Python's `sep.join(parts)`. */
  function Join(sep: string, parts: seq<string>): string
    decreases |parts|
  {
    if parts == [] then ""
    else if |parts| == 1 then parts[0]
    else parts[0] + sep + Join(sep, parts[1..])
  }

  function StartsWith(prefix: string, s: string): bool {
    |prefix| <= |s| && s[..|prefix|] == prefix
  }

  /** Python's `needle in haystack` on two strings. */
  function IsSubstring(needle: string, haystack: string): bool
    decreases |haystack|
  {
    if StartsWith(needle, haystack) then true
    else if haystack == [] then false
    else IsSubstring(needle, haystack[1..])
  }

  /** `needle` is the slice of `haystack` that starts at `i`. */
  predicate OccursAt(needle: string, haystack: string, i: nat) {
    i + |needle| <= |haystack| && haystack[i..i + |needle|] == needle
  }

  /** An occurrence past the first character is an occurrence in the tail, one place earlier. */
  lemma OccursShift(needle: string, haystack: string, i: nat)
    requires haystack != [] && 1 <= i
    ensures OccursAt(needle, haystack, i) <==> OccursAt(needle, haystack[1..], i - 1)
  {
    if i + |needle| <= |haystack| {
      assert haystack[1..][i - 1..i - 1 + |needle|] == haystack[i..i + |needle|];
    }
  }

  /** The substring test holds exactly when the needle occurs at some index. */
  lemma {:induction false} IsSubstringIff(needle: string, haystack: string)
    ensures IsSubstring(needle, haystack) <==> exists i: nat :: i <= |haystack| && OccursAt(needle, haystack, i)
    decreases |haystack|
  {
    if StartsWith(needle, haystack) {
      assert OccursAt(needle, haystack, 0);
    } else if haystack == [] {
      forall i: nat | i <= |haystack| ensures !OccursAt(needle, haystack, i) {
        assert i == 0;
      }
    } else {
      var rest := haystack[1..];
      IsSubstringIff(needle, rest);
      forall i: nat | 1 <= i <= |haystack|
        ensures OccursAt(needle, haystack, i) <==> OccursAt(needle, rest, i - 1)
      {
        OccursShift(needle, haystack, i);
      }
      if IsSubstring(needle, rest) {
        var j: nat :| j <= |rest| && OccursAt(needle, rest, j);
        assert OccursAt(needle, haystack, j + 1);
      } else {
        assert !OccursAt(needle, haystack, 0);
      }
    }
  }

  /** The decimal digits of a natural number, as `str(n)` writes them. */
  function NatToString(n: nat): (s: string)
    ensures |s| >= 1
    ensures forall i :: 0 <= i < |s| ==> '0' <= s[i] <= '9'
    decreases n
  {
    if n < 10 then ["0123456789"[n]]
    else NatToString(n / 10) + ["0123456789"[n % 10]]
  }

  /** `str(i)` for a Python int. */
  function IntToString(i: int): string {
    if i < 0 then "-" + NatToString(-i) else NatToString(i)
  }
}
