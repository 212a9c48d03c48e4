/**
 * Sequence operations behind the Python idioms the core uses: list comprehensions with an
 * `if` filter, comprehensions whose item expression may raise, and `sum` over a projection.
 */
module Seqs {
  import opened Wrappers

  /** `r` can be obtained from `s` by deleting elements, keeping the order of the rest. */
  ghost predicate IsSubsequence<T>(r: seq<T>, s: seq<T>)
    decreases |s|
  {
    r == [] || (s != [] && ((r[0] == s[0] && IsSubsequence(r[1..], s[1..])) || IsSubsequence(r, s[1..])))
  }

  /** Number of elements of `s` that `keep` accepts. */
  function Count<T>(s: seq<T>, keep: T -> bool): (n: nat)
    ensures n <= |s|
    ensures n == |s| <==> forall i :: 0 <= i < |s| ==> keep(s[i])
    ensures n == 0 <==> forall i :: 0 <= i < |s| ==> !keep(s[i])
  {
    if s == [] then 0
    else
      var rest := Count(s[1..], keep);
      assert forall i :: 1 <= i < |s| ==> s[i] == s[1..][i - 1];
      (if keep(s[0]) then 1 else 0) + rest
  }

  /** `[x for x in s if keep(x)]`. */
  function Filter<T>(s: seq<T>, keep: T -> bool): (r: seq<T>)
    ensures |r| == Count(s, keep)
    ensures forall i :: 0 <= i < |r| ==> keep(r[i]) && r[i] in s
    ensures forall i :: 0 <= i < |s| && keep(s[i]) ==> s[i] in r
    ensures IsSubsequence(r, s)
  {
    if s == [] then []
    else
      var rest := Filter(s[1..], keep);
      assert forall i :: 1 <= i < |s| ==> s[i] == s[1..][i - 1];
      if keep(s[0]) then [s[0]] + rest else rest
  }

  /** A subsequence made only of accepted elements has at most as many elements as `s` accepts. */
  lemma {:induction false} SubsequenceCountBound<T>(r: seq<T>, s: seq<T>, keep: T -> bool)
    requires IsSubsequence(r, s)
    requires forall i :: 0 <= i < |r| ==> keep(r[i])
    ensures |r| <= Count(s, keep)
    decreases |s|
  {
    if r == [] {
    } else if r[0] == s[0] && IsSubsequence(r[1..], s[1..]) {
      SubsequenceCountBound(r[1..], s[1..], keep);
    } else {
      SubsequenceCountBound(r, s[1..], keep);
    }
  }

  /**
   * The contract of Filter determines its result: the only subsequence of `s` made of
   * accepted elements and as long as the number of accepted elements is `Filter(s, keep)`.
   */
  lemma {:induction false} FilterUnique<T>(r: seq<T>, s: seq<T>, keep: T -> bool)
    requires IsSubsequence(r, s)
    requires forall i :: 0 <= i < |r| ==> keep(r[i])
    requires |r| == Count(s, keep)
    ensures r == Filter(s, keep)
    decreases |s|
  {
    if s == [] {
    } else if r == [] {
      assert Filter(s, keep) == [];
    } else if r[0] == s[0] && IsSubsequence(r[1..], s[1..]) {
      FilterUnique(r[1..], s[1..], keep);
    } else {
      SubsequenceCountBound(r, s[1..], keep);
      if keep(s[0]) {
        assert false;
      }
      FilterUnique(r, s[1..], keep);
    }
  }

  /**
   * `[f(x) for x in s]` where evaluating `f` may raise: the first element whose `f` fails
   * aborts the whole comprehension with that error.
   */
  function MapAll<A, B, E>(s: seq<A>, f: A -> Outcome<B, E>): (r: Outcome<seq<B>, E>)
    ensures r.Ok? <==> forall i :: 0 <= i < |s| ==> f(s[i]).Ok?
    ensures r.Ok? ==> |r.value| == |s| && forall i :: 0 <= i < |s| ==> r.value[i] == f(s[i]).value
    ensures r.Err? ==> exists i ::
      && 0 <= i < |s|
      && f(s[i]).Err?
      && r.error == f(s[i]).error
      && forall j :: 0 <= j < i ==> f(s[j]).Ok?
  {
    if s == [] then Ok([])
    else
      assert forall i :: 1 <= i < |s| ==> s[i] == s[1..][i - 1];
      match f(s[0])
      case Err(e) => Err(e)
      case Ok(b) =>
        match MapAll(s[1..], f)
        case Err(e) => Err(e)
        case Ok(bs) => Ok([b] + bs)
  }

  /** `sum(f(x) for x in s)`. */
  function Sum<T>(s: seq<T>, f: T -> int): int
  {
    if s == [] then 0 else f(s[0]) + Sum(s[1..], f)
  }

  /** Summing distributes over concatenation. */
  lemma {:induction false} SumAppend<T>(a: seq<T>, b: seq<T>, f: T -> int)
    ensures Sum(a + b, f) == Sum(a, f) + Sum(b, f)
    decreases |a|
  {
    if a == [] {
      assert a + b == b;
    } else {
      assert (a + b)[1..] == a[1..] + b;
      SumAppend(a[1..], b, f);
    }
  }

  /** Taking one element out of a sequence takes its value out of the sum. */
  lemma {:induction false} SumRemoveAt<T>(b: seq<T>, k: nat, f: T -> int)
    requires k < |b|
    ensures Sum(b, f) == f(b[k]) + Sum(b[..k] + b[k + 1..], f)
    decreases k
  {
    if k == 0 {
      assert b[..0] + b[1..] == b[1..];
    } else {
      var tail := b[1..];
      SumRemoveAt(tail, k - 1, f);
      assert tail[k - 1] == b[k];
      assert b[..k] + b[k + 1..] == [b[0]] + (tail[..k - 1] + tail[k..]);
    }
  }

  /** Taking one element out of a sequence takes one occurrence out of its multiset. */
  lemma MultisetRemoveAt<T>(b: seq<T>, k: nat)
    requires k < |b|
    ensures multiset(b[..k] + b[k + 1..]) == multiset(b) - multiset{b[k]}
  {
    assert b == b[..k] + [b[k]] + b[k + 1..];
  }

  /** Removing the first element of `a` and an equal element of `b` keeps them permutations. */
  lemma PermutationRemoveMatching<T>(a: seq<T>, b: seq<T>, k: nat)
    requires multiset(a) == multiset(b)
    requires a != [] && k < |b| && b[k] == a[0]
    ensures multiset(a[1..]) == multiset(b[..k] + b[k + 1..])
  {
    assert a == [a[0]] + a[1..];
    MultisetRemoveAt(b, k);
  }

  /** Reordering the summed sequence does not change the sum. */
  lemma {:induction false} SumPermutation<T>(a: seq<T>, b: seq<T>, f: T -> int)
    requires multiset(a) == multiset(b)
    ensures Sum(a, f) == Sum(b, f)
    decreases |a|
  {
    if a == [] {
      assert |b| == |multiset(b)| == 0;
    } else {
      assert a[0] in multiset(b);
      var k :| 0 <= k < |b| && b[k] == a[0];
      PermutationRemoveMatching(a, b, k);
      SumPermutation(a[1..], b[..k] + b[k + 1..], f);
      SumRemoveAt(b, k, f);
    }
  }
}
