/**
 * Sequence vocabulary shared by the storefront model: JavaScript's
 * `Array.prototype.filter`, `slice(0, n)` and the insertion-ordered
 * `new Set(...)`, each with the facts the components rely on.
 */
module Seqs {

  /** `s.filter(f)`: the elements of `s` satisfying `f`, in their order. */
  function Filter<T>(f: T -> bool, s: seq<T>): seq<T>
  {
    if s == [] then [] else (if f(s[0]) then [s[0]] else []) + Filter(f, s[1..])
  }

  /** Filtering a sequence with a known first element. */
  lemma FilterCons<T>(f: T -> bool, x: T, t: seq<T>)
    ensures Filter(f, [x] + t) == (if f(x) then [x] else []) + Filter(f, t)
  {
    assert ([x] + t)[0] == x;
    assert ([x] + t)[1..] == t;
  }

  /** `s.slice(0, n)`: the first `min(n, |s|)` elements. */
  function Take<T>(s: seq<T>, n: nat): (r: seq<T>)
    ensures |r| == if n < |s| then n else |s|
    ensures r <= s
  {
    if n < |s| then s[..n] else s
  }

  /** Cutting a prefix and the whole at the same length keeps the prefix relation. */
  lemma TakePrefix<T>(a: seq<T>, b: seq<T>, n: nat)
    requires a <= b
    ensures Take(a, n) <= Take(b, n)
  {
  }

  /** `a` can be obtained from `b` by deleting elements: an in-order subsequence. */
  predicate IsSubsequence<T(==)>(a: seq<T>, b: seq<T>)
    decreases |b|
  {
    a == [] || (b != [] && ((a[0] == b[0] && IsSubsequence(a[1..], b[1..])) || IsSubsequence(a, b[1..])))
  }

  predicate NoDuplicates<T(==)>(s: seq<T>)
  {
    forall i, j :: 0 <= i < j < |s| ==> s[i] != s[j]
  }

  /**
   * `[...new Set(s)]`: the first occurrence of every element, in order of
   * first insertion.  Defined by adding the elements one at a time, as a
   * `Set.add` loop does.
   */
  function Distinct<T(==)>(s: seq<T>): seq<T>
  {
    if s == [] then []
    else
      var d := Distinct(s[..|s| - 1]);
      if s[|s| - 1] in d then d else d + [s[|s| - 1]]
  }

  lemma {:induction false} FilterMembers<T>(f: T -> bool, s: seq<T>)
    ensures forall x :: x in Filter(f, s) <==> x in s && f(x)
    ensures |Filter(f, s)| <= |s|
  {
    if s != [] {
      FilterMembers(f, s[1..]);
      assert s == [s[0]] + s[1..];
    }
  }

  lemma {:induction false} FilterIsSubsequence<T>(f: T -> bool, s: seq<T>)
    ensures IsSubsequence(Filter(f, s), s)
  {
    if s != [] {
      FilterIsSubsequence(f, s[1..]);
      var rest := Filter(f, s[1..]);
      if f(s[0]) {
        assert Filter(f, s) == [s[0]] + rest;
        assert (Filter(f, s))[1..] == rest;
      } else {
        assert Filter(f, s) == rest;
        SubsequenceOfTail(rest, s);
      }
    }
  }

  lemma {:induction false} SubsequenceOfSelf<T>(s: seq<T>)
    ensures IsSubsequence(s, s)
  {
    if s != [] {
      SubsequenceOfSelf(s[1..]);
    }
  }

  lemma SubsequenceOfTail<T>(a: seq<T>, b: seq<T>)
    requires b != [] && IsSubsequence(a, b[1..])
    ensures IsSubsequence(a, b)
  {
  }

  /** Filtering keeps everything exactly when every element qualifies. */
  lemma {:induction false} FilterKeepsAll<T>(f: T -> bool, s: seq<T>)
    requires forall x :: x in s ==> f(x)
    ensures Filter(f, s) == s
  {
    if s != [] {
      assert forall x :: x in s[1..] ==> x in s;
      FilterKeepsAll(f, s[1..]);
      assert s == [s[0]] + s[1..];
    }
  }

  /** Filtering keeps nothing when no element qualifies. */
  lemma {:induction false} FilterKeepsNone<T>(f: T -> bool, s: seq<T>)
    requires forall x :: x in s ==> !f(x)
    ensures Filter(f, s) == []
  {
    if s != [] {
      assert forall x :: x in s[1..] ==> x in s;
      FilterKeepsNone(f, s[1..]);
      assert s[0] in s;
    }
  }

  /** Two predicates that agree on the elements of `s` filter it alike. */
  lemma {:induction false} FilterAgree<T>(f: T -> bool, g: T -> bool, s: seq<T>)
    requires forall x :: x in s ==> f(x) == g(x)
    ensures Filter(f, s) == Filter(g, s)
  {
    if s != [] {
      assert forall x :: x in s[1..] ==> x in s;
      FilterAgree(f, g, s[1..]);
    }
  }

  /** Filtering twice is filtering once by the conjunction. */
  lemma {:induction false} FilterTwice<T>(f: T -> bool, g: T -> bool, h: T -> bool, s: seq<T>)
    requires forall x :: x in s ==> h(x) == (f(x) && g(x))
    ensures Filter(g, Filter(f, s)) == Filter(h, s)
  {
    if s != [] {
      assert forall x :: x in s[1..] ==> x in s;
      FilterTwice(f, g, h, s[1..]);
      assert s[0] in s;
      assert Filter(h, s) == (if h(s[0]) then [s[0]] else []) + Filter(h, s[1..]);
      if f(s[0]) {
        assert Filter(f, s) == [s[0]] + Filter(f, s[1..]);
        assert Filter(f, s)[1..] == Filter(f, s[1..]);
        assert Filter(g, Filter(f, s)) == (if g(s[0]) then [s[0]] else []) + Filter(g, Filter(f, s[1..]));
      } else {
        assert !h(s[0]);
        assert Filter(f, s) == Filter(f, s[1..]);
        assert Filter(h, s) == Filter(h, s[1..]);
      }
    }
  }

  lemma {:induction false} FilterAppend<T>(f: T -> bool, a: seq<T>, b: seq<T>)
    ensures Filter(f, a + b) == Filter(f, a) + Filter(f, b)
  {
    if a == [] {
      assert a + b == b;
    } else {
      FilterAppend(f, a[1..], b);
      assert (a + b)[0] == a[0];
      assert (a + b)[1..] == a[1..] + b;
      var head := if f(a[0]) then [a[0]] else [];
      assert Filter(f, a + b) == head + Filter(f, a[1..] + b);
      assert Filter(f, a) == head + Filter(f, a[1..]);
    }
  }

  /** A prefix of a subsequence of `b` is a subsequence of `b`. */
  lemma {:induction false} PrefixIsSubsequence<T>(a: seq<T>, b: seq<T>, k: nat)
    requires k <= |a| && IsSubsequence(a, b)
    ensures IsSubsequence(a[..k], b)
    decreases |b|
  {
    if k > 0 {
      if a[0] == b[0] && IsSubsequence(a[1..], b[1..]) {
        PrefixIsSubsequence(a[1..], b[1..], k - 1);
        assert a[..k][1..] == a[1..][..k - 1];
      } else {
        PrefixIsSubsequence(a, b[1..], k);
      }
    }
  }

  /** The first `n` elements of `s` that satisfy `f`. */
  lemma TakeFilterFacts<T>(f: T -> bool, s: seq<T>, n: nat)
    ensures IsSubsequence(Take(Filter(f, s), n), s)
    ensures forall x :: x in Take(Filter(f, s), n) ==> x in s && f(x)
    ensures |Take(Filter(f, s), n)| < n ==> forall x :: x in s && f(x) ==> x in Take(Filter(f, s), n)
  {
    FilterMembers(f, s);
    FilterIsSubsequence(f, s);
    var r := Filter(f, s);
    PrefixIsSubsequence(r, s, |Take(r, n)|);
    assert Take(r, n) == r[..|Take(r, n)|];
  }

  lemma {:induction false} DistinctFacts<T>(s: seq<T>)
    ensures NoDuplicates(Distinct(s))
    ensures forall x :: x in Distinct(s) <==> x in s
    ensures |Distinct(s)| <= |s|
  {
    if s != [] {
      var p := s[..|s| - 1];
      DistinctFacts(p);
      assert s == p + [s[|s| - 1]];
    }
  }

  /** Adding one more element to the insertion-ordered set. */
  lemma DistinctSnoc<T>(s: seq<T>, x: T)
    ensures Distinct(s + [x]) == if x in Distinct(s) then Distinct(s) else Distinct(s) + [x]
  {
    assert (s + [x])[..|s + [x]| - 1] == s;
  }

  /**
   * Offering the next element of `all` to a set already holding `prefix`
   * and the qualifying elements before it: `Set.add` under a test.
   */
  lemma DistinctFilterStep<T>(f: T -> bool, prefix: seq<T>, all: seq<T>, j: nat)
    requires j < |all|
    ensures Distinct(prefix + Filter(f, all[..j + 1])) ==
      var d := Distinct(prefix + Filter(f, all[..j]));
      if f(all[j]) && all[j] !in d then d + [all[j]] else d
  {
    var x := all[j];
    assert all[..j + 1] == all[..j] + [x];
    FilterAppend(f, all[..j], [x]);
    assert Filter(f, [x]) == (if f(x) then [x] else []) + Filter(f, [x][1..]);
    assert [x][1..] == [];
    var m := Filter(f, all[..j]);
    if f(x) {
      assert Filter(f, all[..j + 1]) == m + [x];
      assert prefix + (m + [x]) == (prefix + m) + [x];
      DistinctSnoc(prefix + m, x);
    } else {
      assert Filter(f, all[..j + 1]) == m + [];
      assert m + [] == m;
    }
  }

  /** The set built from `a` is a prefix of the set built from `a + b`. */
  lemma {:induction false} DistinctPrefix<T>(a: seq<T>, b: seq<T>)
    ensures Distinct(a) <= Distinct(a + b)
    decreases |b|
  {
    if b == [] {
      assert a + b == a;
    } else {
      var b' := b[..|b| - 1];
      DistinctPrefix(a, b');
      assert a + b == (a + b') + [b[|b| - 1]];
      DistinctSnoc(a + b', b[|b| - 1]);
    }
  }

  /** Filtering a sequence without repeats leaves none. */
  lemma {:induction false} FilterNoDuplicates<T>(f: T -> bool, s: seq<T>)
    requires NoDuplicates(s)
    ensures NoDuplicates(Filter(f, s))
  {
    if s != [] {
      FilterNoDuplicates(f, s[1..]);
      FilterMembers(f, s[1..]);
      var rest := Filter(f, s[1..]);
      if f(s[0]) {
        assert s[0] !in s[1..];
        var r := Filter(f, s);
        assert r == [s[0]] + rest;
        forall i, j | 0 <= i < j < |r| ensures r[i] != r[j] {
          if i == 0 {
            assert r[j] in rest;
          } else {
            assert r[i] == rest[i - 1] && r[j] == rest[j - 1];
          }
        }
      }
    }
  }

  lemma NoDuplicatesPrefix<T>(s: seq<T>, k: nat)
    requires k <= |s| && NoDuplicates(s)
    ensures NoDuplicates(s[..k])
  {
  }
}
