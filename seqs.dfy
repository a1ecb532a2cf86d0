/** Sequence operations that stand for the JavaScript array methods the
    components use: `filter`, `reduce`/`forEach` accumulation and `includes`. */
module Seqs {

  /** `s.filter(p)`: the elements of `s` that satisfy `p`, in their order,
      each as often as it occurs in `s`. */
  function Filter<T(!new)>(s: seq<T>, p: T -> bool): (r: seq<T>)
    ensures |r| <= |s|
    ensures forall x :: x in r <==> x in s && p(x)
  {
    if s == [] then []
    else if p(s[0]) then [s[0]] + Filter(s[1..], p)
    else Filter(s[1..], p)
  }

  /** A filter keeps every passing value exactly as often as it occurs. */
  lemma {:induction false} FilterCounts<T(!new)>(s: seq<T>, p: T -> bool, x: T)
    ensures multiset(Filter(s, p))[x] == if p(x) then multiset(s)[x] else 0
  {
    if s != [] {
      FilterCounts(s[1..], p, x);
      assert s == [s[0]] + s[1..];
    }
  }

  /** Filtering distributes over concatenation. */
  lemma {:induction false} FilterAppend<T(!new)>(s: seq<T>, t: seq<T>, p: T -> bool)
    ensures Filter(s + t, p) == Filter(s, p) + Filter(t, p)
  {
    if s == [] {
      assert s + t == t;
    } else {
      assert (s + t)[1..] == s[1..] + t;
      FilterAppend(s[1..], t, p);
    }
  }

  /** A filter whose test every element passes returns its input. */
  /** Every element keeps its count if it passes and has none otherwise,
      and a list whose elements all pass is kept whole. */
  lemma FilterFacts<T(!new)>(s: seq<T>, p: T -> bool)
    ensures forall x :: multiset(Filter(s, p))[x] == if p(x) then multiset(s)[x] else 0
    ensures (forall x :: x in s ==> p(x)) ==> Filter(s, p) == s
  {
    forall x
      ensures multiset(Filter(s, p))[x] == if p(x) then multiset(s)[x] else 0
    {
      FilterCounts(s, p, x);
    }
    if forall x :: x in s ==> p(x) {
      FilterKeepsAll(s, p);
    }
  }

  lemma {:induction false} FilterKeepsAll<T(!new)>(s: seq<T>, p: T -> bool)
    requires forall i :: 0 <= i < |s| ==> p(s[i])
    ensures Filter(s, p) == s
  {
    if s != [] {
      assert forall i :: 0 <= i < |s[1..]| ==> s[1..][i] == s[i + 1];
      FilterKeepsAll(s[1..], p);
      assert s == [s[0]] + s[1..];
    }
  }

  /** A filter whose test no element passes returns nothing. */
  lemma {:induction false} FilterDropsAll<T(!new)>(s: seq<T>, p: T -> bool)
    requires forall i :: 0 <= i < |s| ==> !p(s[i])
    ensures Filter(s, p) == []
  {
    if s != [] {
      assert forall i :: 0 <= i < |s[1..]| ==> s[1..][i] == s[i + 1];
      FilterDropsAll(s[1..], p);
    }
  }

  /** A filter keeps as many elements as its input only when every element
      passes. */
  lemma {:induction false} FilterDropsFailing<T(!new)>(s: seq<T>, p: T -> bool, i: nat)
    requires i < |s| && !p(s[i])
    ensures |Filter(s, p)| < |s|
  {
    if i > 0 {
      assert s[1..][i - 1] == s[i];
      FilterDropsFailing(s[1..], p, i - 1);
    }
  }

  /** `s.filter(y => y !== x)`: every occurrence of `x` removed, every other
      value kept as often as it occurs. */
  function RemoveAll<T(==,!new)>(s: seq<T>, x: T): (r: seq<T>)
    ensures x !in r
    ensures forall y :: y != x ==> multiset(r)[y] == multiset(s)[y]
    ensures x !in s ==> r == s
  {
    var r := Filter(s, Other(x));
    assert forall y :: y != x ==> multiset(r)[y] == multiset(s)[y] by {
      forall y | y != x { FilterCounts(s, Other(x), y); }
    }
    if x !in s then
      FilterKeepsAll(s, Other(x));
      r
    else
      r
  }

  function Other<T(==)>(x: T): T -> bool
  {
    y => y != x
  }

  /** Removing a value from a concatenation removes it from each part. */
  lemma RemoveAllAppend<T(!new)>(s: seq<T>, t: seq<T>, x: T)
    ensures RemoveAll(s + t, x) == RemoveAll(s, x) + RemoveAll(t, x)
  {
    FilterAppend(s, t, Other(x));
  }

  /** A value the filter rejects may be removed from anywhere before filtering. */
  lemma {:induction false} FilterSkips<T(!new)>(s: seq<T>, x: T, t: seq<T>, p: T -> bool)
    requires !p(x)
    ensures Filter(s + [x] + t, p) == Filter(s + t, p)
  {
    FilterAppend(s + [x], t, p);
    FilterAppend(s, [x], p);
    FilterAppend(s, t, p);
    assert [x][1..] == [];
    assert Filter([x], p) == [];
    assert Filter(s, p) + [] == Filter(s, p);
  }

  /** Accumulation `acc + f(x)` over `s` from left to right, starting at 0. */
  function SumOf<T>(s: seq<T>, f: T -> nat): nat
  {
    if s == [] then 0 else f(s[0]) + SumOf(s[1..], f)
  }

  lemma {:induction false} SumAppend<T>(s: seq<T>, t: seq<T>, f: T -> nat)
    ensures SumOf(s + t, f) == SumOf(s, f) + SumOf(t, f)
  {
    if s == [] {
      assert s + t == t;
    } else {
      assert (s + t)[1..] == s[1..] + t;
      SumAppend(s[1..], t, f);
    }
  }

  lemma {:induction false} SumLe<T>(s: seq<T>, f: T -> nat, g: T -> nat)
    requires forall i :: 0 <= i < |s| ==> f(s[i]) <= g(s[i])
    ensures SumOf(s, f) <= SumOf(s, g)
  {
    if s != [] {
      assert forall i :: 0 <= i < |s[1..]| ==> s[1..][i] == s[i + 1];
      SumLe(s[1..], f, g);
    }
  }

  /** Summing the elements that pass `p` and those that pass its negation
      `q` gives the sum over the whole sequence. */
  lemma {:induction false} SumSplit<T(!new)>(s: seq<T>, f: T -> nat, p: T -> bool, q: T -> bool)
    requires forall x :: q(x) <==> !p(x)
    ensures SumOf(s, f) == SumOf(Filter(s, p), f) + SumOf(Filter(s, q), f)
  {
    if s != [] {
      SumSplit(s[1..], f, p, q);
    }
  }
}
