/**
 * Sequence combinators standing for the JavaScript array methods the store uses
 * (`filter`, `reduce` with `+`, `findIndex`, `slice(0, n)`), with the facts about
 * them that the ledger proofs rely on.
 */
module Seqs {
  import opened Wrappers

  /** `s.filter(keep)`: the elements of `s` that `keep` accepts, in their original order. */
  function Filter<T>(s: seq<T>, keep: T -> bool): (r: seq<T>)
    ensures |r| <= |s|
    ensures forall i :: 0 <= i < |r| ==> r[i] in s && keep(r[i])
    ensures forall i :: 0 <= i < |s| && keep(s[i]) ==> s[i] in r
    decreases |s|
  {
    if s == [] then [] else (if keep(s[0]) then [s[0]] else []) + Filter(s[1..], keep)
  }

  /** `s.reduce((acc, x) => acc + f(x), 0)`. */
  function SumOf<T>(s: seq<T>, f: T -> int): int
    decreases |s|
  {
    if s == [] then 0 else f(s[0]) + SumOf(s[1..], f)
  }

  /** `s.findIndex(p)`, with -1 written as `None`. */
  function FirstIndex<T>(s: seq<T>, p: T -> bool): (r: Option<nat>)
    ensures r.Some? ==> r.value < |s| && p(s[r.value]) && forall j :: 0 <= j < r.value ==> !p(s[j])
    ensures r.None? <==> forall j :: 0 <= j < |s| ==> !p(s[j])
    decreases |s|
  {
    if s == [] then None
    else if p(s[0]) then Some(0)
    else match FirstIndex(s[1..], p)
      case None => None
      case Some(k) => Some(k + 1)
  }

  /** `s.find(p)`: the first element `p` accepts. */
  function Find<T>(s: seq<T>, p: T -> bool): (r: Option<T>)
    ensures r.Some? ==> r.value in s && p(r.value)
    ensures r.None? <==> forall j :: 0 <= j < |s| ==> !p(s[j])
  {
    match FirstIndex(s, p)
    case None => None
    case Some(i) => Some(s[i])
  }

  /**
   * `findIndex` followed by an assignment at the index found: the first element
   * that `p` accepts is replaced by `f` of it; no match leaves `s` as it is.
   */
  function UpdateFirst<T>(s: seq<T>, p: T -> bool, f: T -> T): (r: seq<T>)
    ensures |r| == |s|
    ensures FirstIndex(s, p).None? ==> r == s
    ensures forall j :: 0 <= j < |s| && FirstIndex(s, p) != Some(j) ==> r[j] == s[j]
    ensures FirstIndex(s, p).Some? ==> r[FirstIndex(s, p).value] == f(s[FirstIndex(s, p).value])
  {
    match FirstIndex(s, p)
    case None => s
    case Some(i) => s[i := f(s[i])]
  }

  /** The first index is the one before which nothing satisfies `p`. */
  lemma {:induction false} FirstIndexIs<T>(s: seq<T>, p: T -> bool, k: nat)
    requires k < |s| && p(s[k]) && forall j :: 0 <= j < k ==> !p(s[j])
    ensures FirstIndex(s, p) == Some(k)
    ensures Find(s, p) == Some(s[k])
    decreases |s|
  {
    if k > 0 {
      assert !p(s[0]);
      FirstIndexIs(s[1..], p, k - 1);
    }
  }

  /** `s.slice(0, n)`. */
  function Take<T>(s: seq<T>, n: nat): (r: seq<T>)
    ensures |r| <= n && |r| <= |s|
    ensures |s| <= n ==> r == s
    ensures r == s[..|r|]
    ensures n <= |s| ==> |r| == n
  {
    if |s| <= n then s else s[..n]
  }

  /** `r` is made of elements of `s` taken in their order. */
  ghost predicate IsSubsequence<T>(r: seq<T>, s: seq<T>)
    decreases |s|
  {
    r == [] || (s != [] && ((r[0] == s[0] && IsSubsequence(r[1..], s[1..])) || IsSubsequence(r, s[1..])))
  }

  lemma {:induction false} FilterIsSubsequence<T>(s: seq<T>, keep: T -> bool)
    ensures IsSubsequence(Filter(s, keep), s)
    decreases |s|
  {
    if s != [] {
      FilterIsSubsequence(s[1..], keep);
      var r := Filter(s, keep);
      if keep(s[0]) {
        assert r[0] == s[0] && r[1..] == Filter(s[1..], keep);
      } else {
        assert r == Filter(s[1..], keep);
      }
    }
  }

  lemma {:induction false} FilterAppend<T>(a: seq<T>, b: seq<T>, keep: T -> bool)
    ensures Filter(a + b, keep) == Filter(a, keep) + Filter(b, keep)
    decreases |a|
  {
    if a == [] {
      assert a + b == b;
    } else {
      assert (a + b)[1..] == a[1..] + b;
      FilterAppend(a[1..], b, keep);
    }
  }

  lemma {:induction false} FilterKeepsAll<T>(s: seq<T>, keep: T -> bool)
    requires forall x :: x in s ==> keep(x)
    ensures Filter(s, keep) == s
    decreases |s|
  {
    if s != [] {
      FilterKeepsAll(s[1..], keep);
    }
  }

  /** No element occurs twice. */
  predicate Distinct<T(==)>(s: seq<T>)
  {
    forall i, j :: 0 <= i < j < |s| ==> s[i] != s[j]
  }

  /** Filtering a list free of repeats gives a list free of repeats. */
  lemma {:induction false} FilterDistinct<T>(s: seq<T>, keep: T -> bool)
    requires Distinct(s)
    ensures Distinct(Filter(s, keep))
    decreases |s|
  {
    if s != [] {
      FilterDistinct(s[1..], keep);
      var rest := Filter(s[1..], keep);
      if keep(s[0]) {
        assert s[0] !in s[1..];
        assert forall i :: 0 <= i < |rest| ==> rest[i] != s[0];
        assert Filter(s, keep) == [s[0]] + rest;
      }
    }
  }

  /** With no negative term, a sum is at least each of its terms. */
  lemma {:induction false} SumAtLeastElement<T>(s: seq<T>, f: T -> int, i: nat)
    requires forall x :: x in s ==> f(x) >= 0
    requires i < |s|
    ensures f(s[i]) <= SumOf(s, f)
    decreases |s|
  {
    SumNonNegative(s[1..], f);
    if i > 0 {
      SumAtLeastElement(s[1..], f, i - 1);
    }
  }

  lemma SumAtLeastEach<T>(s: seq<T>, f: T -> int)
    requires forall x :: x in s ==> f(x) >= 0
    ensures forall i :: 0 <= i < |s| ==> f(s[i]) <= SumOf(s, f)
  {
    forall i | 0 <= i < |s| ensures f(s[i]) <= SumOf(s, f) {
      SumAtLeastElement(s, f, i);
    }
  }

  lemma {:induction false} SumAppend<T>(a: seq<T>, b: seq<T>, f: T -> int)
    ensures SumOf(a + b, f) == SumOf(a, f) + SumOf(b, f)
    decreases |a|
  {
    if a == [] {
      assert a + b == b;
    } else {
      assert (a + b)[1..] == a[1..] + b;
      SumAppend(a[1..], b, f);
    }
  }

  /** Replacing one element changes the sum by the difference of the two elements. */
  lemma {:induction false} SumUpdate<T>(s: seq<T>, i: nat, x: T, f: T -> int)
    requires i < |s|
    ensures SumOf(s[i := x], f) == SumOf(s, f) - f(s[i]) + f(x)
    decreases |s|
  {
    if i > 0 {
      assert s[i := x][1..] == s[1..][i - 1 := x];
      SumUpdate(s[1..], i - 1, x, f);
    } else {
      assert s[i := x][1..] == s[1..];
    }
  }

  lemma {:induction false} SumNonNegative<T>(s: seq<T>, f: T -> int)
    requires forall x :: x in s ==> f(x) >= 0
    ensures SumOf(s, f) >= 0
    decreases |s|
  {
    if s != [] {
      SumNonNegative(s[1..], f);
    }
  }

  lemma {:induction false} SumPositive<T>(s: seq<T>, f: T -> int)
    requires forall x :: x in s ==> f(x) > 0
    ensures s != [] ==> SumOf(s, f) > 0
    decreases |s|
  {
    if s != [] {
      SumNonNegative(s[1..], f);
    }
  }

  /** What one element adds to the sum of the filtered sequence. */
  function Share<T>(x: T, keep: T -> bool, f: T -> int): int
  {
    if keep(x) then f(x) else 0
  }

  /**
   * Replacing one element changes the sum over the filtered sequence by the
   * difference of the two elements' shares and by nothing else.
   */
  lemma {:induction false} SumFilterUpdate<T>(s: seq<T>, i: nat, x: T, keep: T -> bool, f: T -> int)
    requires i < |s|
    ensures SumOf(Filter(s[i := x], keep), f)
         == SumOf(Filter(s, keep), f) - Share(s[i], keep, f) + Share(x, keep, f)
    decreases |s|
  {
    var t := s[i := x];
    assert s == [s[0]] + s[1..] && t == [t[0]] + t[1..];
    SumFilterCons(s[0], s[1..], keep, f);
    SumFilterCons(t[0], t[1..], keep, f);
    if i > 0 {
      assert t[1..] == s[1..][i - 1 := x];
      SumFilterUpdate(s[1..], i - 1, x, keep, f);
    } else {
      assert t[1..] == s[1..];
    }
  }

  /** Adding one element in front changes the filtered sum by that element's share. */
  lemma SumFilterCons<T>(x: T, s: seq<T>, keep: T -> bool, f: T -> int)
    ensures SumOf(Filter([x] + s, keep), f) == Share(x, keep, f) + SumOf(Filter(s, keep), f)
  {
    assert ([x] + s)[1..] == s;
    SumAppend(if keep(x) then [x] else [], Filter(s, keep), f);
  }

  /** Adding one element at the end changes the filtered sum by that element's share. */
  lemma SumFilterSnoc<T>(s: seq<T>, x: T, keep: T -> bool, f: T -> int)
    ensures SumOf(Filter(s + [x], keep), f) == SumOf(Filter(s, keep), f) + Share(x, keep, f)
  {
    FilterAppend(s, [x], keep);
    assert [x][1..] == [];
    SumAppend(Filter(s, keep), Filter([x], keep), f);
  }

  /**
   * A wider filter over non-negative values never sums to less: the sum over the
   * elements `narrow` keeps is at most the sum over those `wide` keeps.
   */
  lemma {:induction false} SumFilterMonotone<T>(s: seq<T>, narrow: T -> bool, wide: T -> bool, f: T -> int)
    requires forall x :: x in s && narrow(x) ==> wide(x)
    requires forall x :: x in s && wide(x) ==> f(x) >= 0
    ensures SumOf(Filter(s, narrow), f) <= SumOf(Filter(s, wide), f)
    decreases |s|
  {
    if s != [] {
      SumFilterMonotone(s[1..], narrow, wide, f);
      SumFilterCons(s[0], s[1..], narrow, f);
      SumFilterCons(s[0], s[1..], wide, f);
      assert [s[0]] + s[1..] == s;
    }
  }
}
