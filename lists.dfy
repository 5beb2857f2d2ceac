/** `Array.prototype.filter` and `Array.prototype.map`, and the facts about
    filtering that several screens rely on: what is kept, in what order, and
    how many. */
module Lists {
  /** `r` is `s` with some elements dropped and the rest in their order. */
  predicate SubsequenceOf<T(==)>(r: seq<T>, s: seq<T>)
    decreases |s|
  {
    if r == [] then true
    else if s == [] then false
    else (r[0] == s[0] && SubsequenceOf(r[1..], s[1..])) || SubsequenceOf(r, s[1..])
  }

  /** `xs.map(f)`: one image per element, in order. */
  function Map<A, B>(xs: seq<A>, f: A -> B): (r: seq<B>)
    ensures |r| == |xs| && forall i :: 0 <= i < |xs| ==> r[i] == f(xs[i])
  {
    if xs == [] then [] else [f(xs[0])] + Map(xs[1..], f)
  }

  /** The elements of `s` that satisfy `keep`, in order. */
  function Filter<T>(s: seq<T>, keep: T -> bool): (r: seq<T>)
    ensures |r| <= |s|
    ensures forall i :: 0 <= i < |r| ==> keep(r[i])
    decreases |s|
  {
    if s == [] then []
    else if keep(s[0]) then [s[0]] + Filter(s[1..], keep)
    else Filter(s[1..], keep)
  }

  /** Exactly the kept elements survive, each as often as it occurs. */
  lemma {:induction false} FilterKeepsExactly<T>(s: seq<T>, keep: T -> bool)
    ensures forall y :: multiset(Filter(s, keep))[y] == if keep(y) then multiset(s)[y] else 0
    decreases |s|
  {
    if s != [] {
      FilterKeepsExactly(s[1..], keep);
      assert s == [s[0]] + s[1..];
    }
  }

  lemma {:induction false} FilterIsSubsequence<T>(s: seq<T>, keep: T -> bool)
    ensures SubsequenceOf(Filter(s, keep), s)
    decreases |s|
  {
    if s != [] {
      FilterIsSubsequence(s[1..], keep);
      var r := Filter(s, keep);
      if !keep(s[0]) && r != [] {
        SkipFront(r, s[1..], s[0]);
      }
    }
  }

  lemma {:induction false} SkipFront<T>(r: seq<T>, s: seq<T>, x: T)
    requires SubsequenceOf(r, s)
    ensures SubsequenceOf(r, [x] + s)
  {
    var t := [x] + s;
    assert t[1..] == s;
  }

  /** Keeping everything changes nothing. */
  lemma {:induction false} FilterAll<T>(s: seq<T>, keep: T -> bool)
    requires forall i :: 0 <= i < |s| ==> keep(s[i])
    ensures Filter(s, keep) == s
    decreases |s|
  {
    if s != [] {
      FilterAll(s[1..], keep);
    }
  }

  /** The test `y => y !== x`. */
  function Different<T(==)>(x: T): T -> bool {
    y => y != x
  }

  /** `s.filter(y => y !== x)`. */
  function RemoveAll<T(==)>(s: seq<T>, x: T): (r: seq<T>)
    ensures r == Filter(s, Different(x))
  {
    Filter(s, Different(x))
  }

  lemma RemoveAllFacts<T>(s: seq<T>, x: T)
    ensures x !in RemoveAll(s, x)
    ensures forall y :: y != x ==> multiset(RemoveAll(s, x))[y] == multiset(s)[y]
    ensures x !in s ==> RemoveAll(s, x) == s
    ensures SubsequenceOf(RemoveAll(s, x), s)
  {
    FilterKeepsExactly(s, Different(x));
    FilterIsSubsequence(s, Different(x));
    if x !in s {
      FilterAll(s, Different(x));
    }
  }

  predicate Distinct<T(==)>(s: seq<T>) {
    forall i, j :: 0 <= i < j < |s| ==> s[i] != s[j]
  }

  /** Stepping over element `i`: the suffix loses its head and the prefix
      gains it. */
  lemma SliceStep<T>(s: seq<T>, i: nat)
    requires i < |s|
    ensures s[i..][0] == s[i] && s[i..][1..] == s[i + 1..]
    ensures s[..i + 1] == s[..i] + [s[i]]
  {
  }

  /** The whole prefix and the empty suffix. */
  lemma SliceEnds<T>(s: seq<T>)
    ensures s[..|s|] == s && s[|s|..] == []
  {
  }

  /** A new element in front keeps a list free of repeats. */
  lemma DistinctCons<T>(x: T, s: seq<T>)
    requires Distinct(s) && x !in s
    ensures Distinct([x] + s)
  {
    var t := [x] + s;
    forall i, j | 0 <= i < j < |t| ensures t[i] != t[j] {
      assert t[j] == s[j - 1];
      if i > 0 {
        assert t[i] == s[i - 1];
      }
    }
  }

  /** In a list without repeats every element occurs once. */
  lemma {:induction false} DistinctCount<T>(s: seq<T>, x: T)
    requires Distinct(s)
    ensures multiset(s)[x] == if x in s then 1 else 0
    decreases |s|
  {
    if s != [] {
      assert s == [s[0]] + s[1..];
      assert Distinct(s[1..]) by {
        forall i, j | 0 <= i < j < |s[1..]|
          ensures s[1..][i] != s[1..][j]
        {
          assert s[1..][i] == s[i + 1] && s[1..][j] == s[j + 1];
        }
      }
      DistinctCount(s[1..], x);
      if x == s[0] {
        assert x !in s[1..] by {
          forall k | 0 <= k < |s[1..]|
            ensures s[1..][k] != x
          {
            assert s[1..][k] == s[k + 1];
          }
        }
      }
    }
  }
}
