/**
 * Sequence helpers standing for the array methods the TypeScript code leans on:
 * `filter`, `reduce` to a sum, `indexOf`/`includes`, `Math.max` over a list.
 * Folds recurse on the LAST element so that a loop over a prefix `s[..i]`
 * extends them one step at a time.
 */
module Seqs {
  import opened Wrappers

  /** `Array.prototype.filter`: the elements satisfying `p`, in their order. */
  function Filter<T>(s: seq<T>, p: T -> bool): (r: seq<T>)
    ensures |r| <= |s|
    ensures forall i :: 0 <= i < |r| ==> r[i] in s && p(r[i])
    ensures forall i {:trigger s[i] in r} :: 0 <= i < |s| && p(s[i]) ==> s[i] in r
  {
    if s == [] then []
    else
      assert s == s[..|s| - 1] + [s[|s| - 1]];
      Filter(s[..|s| - 1], p) + (if p(s[|s| - 1]) then [s[|s| - 1]] else [])
  }

  lemma {:induction false} FilterAppend<T>(a: seq<T>, b: seq<T>, p: T -> bool)
    ensures Filter(a + b, p) == Filter(a, p) + Filter(b, p)
    decreases |b|
  {
    if b == [] {
      assert a + b == a;
    } else {
      var b' := b[..|b| - 1];
      assert (a + b)[..|a + b| - 1] == a + b';
      FilterAppend(a, b', p);
    }
  }

  lemma FilterCons<T>(x: T, s: seq<T>, p: T -> bool)
    ensures Filter([x] + s, p) == (if p(x) then [x] else []) + Filter(s, p)
  {
    FilterAppend([x], s, p);
    assert Filter([x], p) == Filter([], p) + (if p(x) then [x] else []) by {
      assert [x][..0] == [];
    }
  }

  /** Everything kept: the filter is the identity. */
  lemma {:induction false} FilterAll<T>(s: seq<T>, p: T -> bool)
    requires forall i :: 0 <= i < |s| ==> p(s[i])
    ensures Filter(s, p) == s
  {
    if s != [] {
      FilterAll(s[..|s| - 1], p);
      assert s == s[..|s| - 1] + [s[|s| - 1]];
    }
  }

  /** Nothing kept: the filter is empty. */
  lemma FilterNone<T>(s: seq<T>, p: T -> bool)
    requires forall i :: 0 <= i < |s| ==> !p(s[i])
    ensures Filter(s, p) == []
  {
  }

  /** The filter keeps the whole list exactly when every element satisfies `p`. */
  lemma {:induction false} FilterLength<T>(s: seq<T>, p: T -> bool)
    ensures |Filter(s, p)| == |s| <==> forall i :: 0 <= i < |s| ==> p(s[i])
  {
    if s != [] {
      var s' := s[..|s| - 1];
      FilterLength(s', p);
      assert forall i :: 0 <= i < |s'| ==> s'[i] == s[i];
    }
  }

  /** Filters by two predicates that agree everywhere are equal. */
  lemma {:induction false} FilterEquiv<T>(s: seq<T>, p: T -> bool, q: T -> bool)
    requires forall x :: p(x) == q(x)
    ensures Filter(s, p) == Filter(s, q)
  {
    if s != [] {
      FilterEquiv(s[..|s| - 1], p, q);
    }
  }

  /** The kept elements keep their relative order: `Filter` of a filtered list. */
  lemma {:induction false} FilterFilter<T>(s: seq<T>, p: T -> bool, q: T -> bool, pq: T -> bool)
    requires forall x :: pq(x) == (p(x) && q(x))
    ensures Filter(Filter(s, p), q) == Filter(s, pq)
  {
    if s != [] {
      var s' := s[..|s| - 1];
      var x := s[|s| - 1];
      FilterFilter(s', p, q, pq);
      FilterAppend(Filter(s', p), if p(x) then [x] else [], q);
      if p(x) {
        assert Filter([x], q) == Filter([], q) + (if q(x) then [x] else []) by {
          assert [x][..0] == [];
        }
      }
    }
  }

  /** `r` lists the elements of `s` found at the positions `idx`, which increase strictly. */
  ghost predicate PicksAt<T>(r: seq<T>, s: seq<T>, idx: seq<int>)
  {
    |idx| == |r|
    && (forall k :: 0 <= k < |idx| ==> 0 <= idx[k] < |s| && r[k] == s[idx[k]])
    && (forall k, l :: 0 <= k < l < |idx| ==> idx[k] < idx[l])
  }

  /** The positions of the elements of `s` that satisfy `p`, in increasing order. */
  function Kept<T>(s: seq<T>, p: T -> bool): (idx: seq<int>)
    ensures forall i :: i in idx <==> 0 <= i < |s| && p(s[i])
    ensures forall k, l :: 0 <= k < l < |idx| ==> idx[k] < idx[l]
    ensures forall k :: 0 <= k < |idx| ==> 0 <= idx[k] < |s|
  {
    if s == [] then []
    else
      var idx := Kept(s[..|s| - 1], p);
      assert forall i :: 0 <= i < |s| - 1 ==> s[..|s| - 1][i] == s[i];
      idx + (if p(s[|s| - 1]) then [|s| - 1] else [])
  }

  /**
   * The filter is the subsequence of the kept positions: every element
   * satisfying `p`, and nothing else, in the order of `s`.
   */
  lemma {:induction false} FilterPicks<T>(s: seq<T>, p: T -> bool)
    ensures PicksAt(Filter(s, p), s, Kept(s, p))
  {
    if s != [] {
      var n := |s| - 1;
      var s', x := s[..n], s[n];
      FilterPicks(s', p);
      var r', idx' := Filter(s', p), Kept(s', p);
      var r, idx := r' + (if p(x) then [x] else []), idx' + (if p(x) then [n] else []);
      assert Filter(s, p) == r && Kept(s, p) == idx;
      forall k | 0 <= k < |idx|
        ensures 0 <= idx[k] < |s| && r[k] == s[idx[k]]
      {
        if k < |idx'| {
          assert r[k] == r'[k] == s'[idx'[k]];
        }
      }
      forall k, l | 0 <= k < l < |idx|
        ensures idx[k] < idx[l]
      {
        if l == |idx'| {
          assert idx'[k] < |s'|;
        }
      }
    }
  }

  /** An empty filter means no element satisfies `p`. */
  lemma FilterEmpty<T>(s: seq<T>, p: T -> bool)
    ensures Filter(s, p) == [] <==> forall i :: 0 <= i < |s| ==> !p(s[i])
  {
    forall i | 0 <= i < |s| && p(s[i]) ensures Filter(s, p) != [] {
      assert s[i] in Filter(s, p);
    }
  }

  /** Strictly increasing positions are distinct: as many positions as list entries. */
  lemma {:induction false} IncreasingCard(idx: seq<int>)
    requires forall k, l :: 0 <= k < l < |idx| ==> idx[k] < idx[l]
    ensures |set i | i in idx| == |idx|
  {
    if idx != [] {
      var n := |idx| - 1;
      IncreasingCard(idx[..n]);
      assert (set i | i in idx) == (set i | i in idx[..n]) + {idx[n]};
      assert idx[n] !in (set i | i in idx[..n]);
    }
  }

  /** The filter has one element per position whose element satisfies `p`. */
  lemma FilterCount<T>(s: seq<T>, p: T -> bool, positions: set<int>)
    requires forall i :: i in positions <==> 0 <= i < |s| && p(s[i])
    ensures |Filter(s, p)| == |positions|
  {
    FilterPicks(s, p);
    var idx := Kept(s, p);
    IncreasingCard(idx);
    var kept := set i | i in idx;
    forall i ensures i in kept <==> i in positions {
      assert i in kept <==> 0 <= i < |s| && p(s[i]);
    }
    assert kept == positions;
  }

  /** `reduce((sum, x) => sum + f(x), 0)`. */
  function Sum<T>(s: seq<T>, f: T -> int): int
  {
    if s == [] then 0 else Sum(s[..|s| - 1], f) + f(s[|s| - 1])
  }

  lemma {:induction false} SumBounds<T>(s: seq<T>, f: T -> int, lo: int, hi: int)
    requires forall i :: 0 <= i < |s| ==> lo <= f(s[i]) <= hi
    ensures lo * |s| <= Sum(s, f) <= hi * |s|
  {
    if s != [] {
      SumBounds(s[..|s| - 1], f, lo, hi);
    }
  }

  /** A sum of non-negative terms is zero exactly when every term is. */
  lemma {:induction false} SumZero<T>(s: seq<T>, f: T -> int)
    requires forall i :: 0 <= i < |s| ==> f(s[i]) >= 0
    ensures Sum(s, f) >= 0
    ensures Sum(s, f) == 0 <==> forall i :: 0 <= i < |s| ==> f(s[i]) == 0
  {
    if s != [] {
      SumZero(s[..|s| - 1], f);
      assert forall i :: 0 <= i < |s| - 1 ==> s[..|s| - 1][i] == s[i];
    }
  }

  lemma {:induction false} SumAppend<T>(a: seq<T>, b: seq<T>, f: T -> int)
    ensures Sum(a + b, f) == Sum(a, f) + Sum(b, f)
    decreases |b|
  {
    if b == [] {
      assert a + b == a;
    } else {
      var b' := b[..|b| - 1];
      assert (a + b)[..|a + b| - 1] == a + b';
      SumAppend(a, b', f);
    }
  }

  /** `Array.prototype.findIndex`: the first position whose element satisfies `p`, or -1. */
  function FindIndex<T>(s: seq<T>, p: T -> bool): (i: int)
    ensures -1 <= i < |s|
    ensures i == -1 <==> forall k :: 0 <= k < |s| ==> !p(s[k])
    ensures i >= 0 ==> p(s[i]) && forall k :: 0 <= k < i ==> !p(s[k])
  {
    if s == [] then -1
    else if p(s[0]) then 0
    else
      var i := FindIndex(s[1..], p);
      assert forall k :: 1 <= k < |s| ==> s[k] == s[1..][k - 1];
      if i == -1 then -1 else i + 1
  }

  /** `Array.prototype.find`: the first element satisfying `p`, None (`undefined`) if there is none. */
  function Find<T>(s: seq<T>, p: T -> bool): (r: Option<T>)
    ensures r.None? <==> forall k :: 0 <= k < |s| ==> !p(s[k])
    ensures r.Some? ==> FindIndex(s, p) >= 0 && r.value == s[FindIndex(s, p)]
  {
    var i := FindIndex(s, p);
    if i == -1 then None else Some(s[i])
  }

  /** `Array.prototype.indexOf`: the first position of `x`, or -1. */
  function IndexOf<T(==)>(s: seq<T>, x: T): (i: int)
    ensures -1 <= i < |s|
    ensures i == -1 <==> x !in s
    ensures i >= 0 ==> s[i] == x && x !in s[..i]
  {
    if s == [] then -1
    else if s[0] == x then 0
    else
      var j := IndexOf(s[1..], x);
      assert s[1..][..j + 1] == s[1..j + 2] by { }
      if j == -1 then -1 else j + 1
  }

  /** The largest element of a non-empty list. */
  function Max(s: seq<int>): (m: int)
    requires |s| > 0
    ensures m in s && forall i :: 0 <= i < |s| ==> s[i] <= m
  {
    if |s| == 1 then s[0]
    else
      var m := Max(s[1..]);
      assert forall i :: 1 <= i < |s| ==> s[i] == s[1..][i - 1];
      if s[0] >= m then s[0] else m
  }

  /** The smallest element of a non-empty list. */
  function Min(s: seq<int>): (m: int)
    requires |s| > 0
    ensures m in s && forall i :: 0 <= i < |s| ==> m <= s[i]
  {
    if |s| == 1 then s[0]
    else
      var m := Min(s[1..]);
      assert forall i :: 1 <= i < |s| ==> s[i] == s[1..][i - 1];
      if s[0] <= m then s[0] else m
  }

  /** `reverse()`. */
  function Reverse<T>(s: seq<T>): (r: seq<T>)
    ensures |r| == |s|
    ensures forall i :: 0 <= i < |s| ==> r[i] == s[|s| - 1 - i]
    ensures multiset(r) == multiset(s)
  {
    if s == [] then []
    else
      assert s == [s[0]] + s[1..];
      Reverse(s[1..]) + [s[0]]
  }

  /** JavaScript indexing: element `i`, or `undefined` outside the list (negative `i` too). */
  function At<T>(s: seq<T>, i: int): (r: Option<T>)
    ensures r.Some? <==> 0 <= i < |s|
    ensures r.Some? ==> r.value == s[i]
  {
    if 0 <= i < |s| then Some(s[i]) else None
  }
}
