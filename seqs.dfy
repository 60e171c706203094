/**
 * The two array idioms the dashboard is built from, `xs.filter(keep)` and
 * `xs.map(x => hit(x) ? f(x) : x)`, with the facts the rest of the model needs about them.
 */
module Seqs {

  /** `s.filter(keep)`: the elements of `s` that `keep` accepts, in their original order. */
  function Filter<T>(s: seq<T>, keep: T -> bool): (r: seq<T>)
    ensures |r| <= |s|
    ensures forall i :: 0 <= i < |r| ==> r[i] in s && keep(r[i])
    ensures forall i :: 0 <= i < |s| && keep(s[i]) ==> s[i] in r
  {
    if s == [] then []
    else (if keep(s[0]) then [s[0]] else []) + Filter(s[1..], keep)
  }

  /** The negation of a filter predicate (`x => !keep(x)`). */
  function Not<T>(keep: T -> bool): T -> bool
  {
    x => !keep(x)
  }

  /** `sub` can be obtained from `s` by deleting elements, keeping the rest in order. */
  predicate IsSubsequence<T(==)>(sub: seq<T>, s: seq<T>)
    decreases |s|
  {
    if s == [] then sub == []
    else (sub != [] && sub[0] == s[0] && IsSubsequence(sub[1..], s[1..])) || IsSubsequence(sub, s[1..])
  }

  /** `s.map(x => hit(x) ? f(x) : x)`: rewrite the elements `hit` selects, keep the rest. */
  function UpdateWhere<T>(s: seq<T>, hit: T -> bool, f: T -> T): (r: seq<T>)
    ensures |r| == |s|
    ensures forall i :: 0 <= i < |s| ==> r[i] == (if hit(s[i]) then f(s[i]) else s[i])
  {
    if s == [] then []
    else [if hit(s[0]) then f(s[0]) else s[0]] + UpdateWhere(s[1..], hit, f)
  }

  /** What `filter` keeps is a subsequence of what it was given: survivors keep their relative order. */
  lemma {:induction false} FilterIsSubsequence<T>(s: seq<T>, keep: T -> bool)
    ensures IsSubsequence(Filter(s, keep), s)
  {
    if s != [] {
      FilterIsSubsequence(s[1..], keep);
      assert Filter(s, keep) == (if keep(s[0]) then [s[0]] else []) + Filter(s[1..], keep);
      if keep(s[0]) {
        assert Filter(s, keep)[1..] == Filter(s[1..], keep);
      } else {
        assert Filter(s, keep) == Filter(s[1..], keep);
      }
    }
  }

  /** A filter that accepts every element returns its input unchanged. */
  lemma {:induction false} FilterKeepsAll<T>(s: seq<T>, keep: T -> bool)
    requires forall i :: 0 <= i < |s| ==> keep(s[i])
    ensures Filter(s, keep) == s
  {
    if s != [] {
      FilterKeepsAll(s[1..], keep);
      assert [s[0]] + s[1..] == s;
    }
  }

  /** Filtering an extended sequence filters the prefix and then the new element. */
  lemma {:induction false} FilterSnoc<T>(s: seq<T>, x: T, keep: T -> bool)
    ensures Filter(s + [x], keep) == Filter(s, keep) + (if keep(x) then [x] else [])
  {
    if s == [] {
      assert [x][1..] == [];
    } else {
      assert (s + [x])[0] == s[0];
      assert (s + [x])[1..] == s[1..] + [x];
      FilterSnoc(s[1..], x, keep);
    }
  }

  /** Filtering splits a sequence between what `keep` accepts and what it rejects. */
  lemma {:induction false} FilterSplitsLength<T>(s: seq<T>, keep: T -> bool)
    ensures |Filter(s, keep)| + |Filter(s, Not(keep))| == |s|
  {
    if s != [] {
      FilterSplitsLength(s[1..], keep);
    }
  }

  /** An update the filter cannot see commutes with the filter. */
  lemma {:induction false} FilterUpdateWhere<T>(s: seq<T>, keep: T -> bool, hit: T -> bool, f: T -> T)
    requires forall x :: keep(f(x)) == keep(x)
    ensures Filter(UpdateWhere(s, hit, f), keep) == UpdateWhere(Filter(s, keep), hit, f)
  {
    if s != [] {
      FilterUpdateWhere(s[1..], keep, hit, f);
      var u := UpdateWhere(s, hit, f);
      assert u[0] == (if hit(s[0]) then f(s[0]) else s[0]);
      assert u[1..] == UpdateWhere(s[1..], hit, f);
      assert keep(u[0]) == keep(s[0]);
      var kept := Filter(s, keep);
      if keep(s[0]) {
        assert kept == [s[0]] + Filter(s[1..], keep);
        assert kept[1..] == Filter(s[1..], keep);
      } else {
        assert kept == Filter(s[1..], keep);
      }
    }
  }

  /** Keys never increase from left to right. */
  ghost predicate DescendingBy<T>(s: seq<T>, key: T -> int)
  {
    forall i, j :: 0 <= i < j < |s| ==> key(s[i]) >= key(s[j])
  }

  /** Putting an element with a key no smaller than the head's in front keeps the order. */
  lemma DescendingCons<T>(y: T, t: seq<T>, key: T -> int)
    requires DescendingBy(t, key)
    requires t == [] || key(y) >= key(t[0])
    ensures DescendingBy([y] + t, key)
  {
  }

  /** The tail of an ordered sequence is ordered. */
  lemma DescendingTail<T>(s: seq<T>, key: T -> int)
    requires s != [] && DescendingBy(s, key)
    ensures DescendingBy(s[1..], key)
  {
  }

  /** The step of the insertion that keeps the head and inserts `x` further down. */
  lemma InsertBehindHead<T>(x: T, s: seq<T>, rest: seq<T>, key: T -> int)
    requires s != [] && DescendingBy(s, key) && key(x) < key(s[0])
    requires DescendingBy(rest, key) && |rest| == |s|
    requires multiset(rest) == multiset(s[1..]) + multiset{x}
    requires rest[0] == x || (s[1..] != [] && rest[0] == s[1..][0])
    ensures DescendingBy([s[0]] + rest, key)
    ensures multiset([s[0]] + rest) == multiset(s) + multiset{x}
  {
    if rest[0] != x {
      assert rest[0] == s[1];
    }
    DescendingCons(s[0], rest, key);
    assert s == [s[0]] + s[1..];
  }

  /** Places `x` in front of the first element whose key is not above its own. */
  function InsertDescending<T>(x: T, s: seq<T>, key: T -> int): (r: seq<T>)
    requires DescendingBy(s, key)
    ensures DescendingBy(r, key)
    ensures multiset(r) == multiset(s) + multiset{x}
    ensures |r| == |s| + 1
    ensures r[0] == x || (s != [] && r[0] == s[0])
  {
    if s == [] || key(x) >= key(s[0]) then
      DescendingCons(x, s, key);
      [x] + s
    else
      DescendingTail(s, key);
      var rest := InsertDescending(x, s[1..], key);
      InsertBehindHead(x, s, rest, key);
      [s[0]] + rest
  }

  /**
   * `s.sort((a, b) => key(b) - key(a))`: a stable insertion sort putting larger keys first.
   * Elements with equal keys keep their relative order, as the comparator returns 0 for them.
   */
  function SortDescending<T>(s: seq<T>, key: T -> int): (r: seq<T>)
    ensures DescendingBy(r, key)
    ensures multiset(r) == multiset(s)
    ensures |r| == |s|
  {
    if s == [] then []
    else
      assert s == [s[0]] + s[1..];
      InsertDescending(s[0], SortDescending(s[1..], key), key)
  }
}
