/**
 * `Array.prototype.sort` with a comparator, which JavaScript engines
 * implement as a STABLE sort. It is modelled once, as an insertion sort over
 * a "strictly before" relation `lt`: `lt(a, b)` holds when the comparator
 * returns a negative number for (a, b). Every call site in the tracker passes
 * a comparator that is a strict weak order.
 */
module Sorting {
  import opened Seqs

  /** Asymmetric, and "not before" is transitive: what a consistent comparator gives. */
  ghost predicate StrictWeakOrder<T(!new)>(lt: (T, T) -> bool)
  {
    && (forall a, b :: lt(a, b) ==> !lt(b, a))
    && (forall a, b, c :: !lt(a, b) && !lt(b, c) ==> !lt(a, c))
  }

  /** No element is strictly before an earlier one. */
  ghost predicate Sorted<T>(s: seq<T>, lt: (T, T) -> bool)
  {
    forall i, j :: 0 <= i < j < |s| ==> !lt(s[j], s[i])
  }

  /** Places `x` in front of the first element that is not strictly before it. */
  function Insert<T>(x: T, s: seq<T>, lt: (T, T) -> bool): (r: seq<T>)
    ensures |r| == |s| + 1
  {
    if s == [] || !lt(s[0], x) then [x] + s else [s[0]] + Insert(x, s[1..], lt)
  }

  /** The stable sort: earlier elements are inserted in front of their equals. */
  function Sort<T>(s: seq<T>, lt: (T, T) -> bool): (r: seq<T>)
    ensures |r| == |s|
  {
    if s == [] then [] else Insert(s[0], Sort(s[1..], lt), lt)
  }

  lemma {:induction false} InsertPermutes<T>(x: T, s: seq<T>, lt: (T, T) -> bool)
    ensures multiset(Insert(x, s, lt)) == multiset(s) + multiset{x}
  {
    if !(s == [] || !lt(s[0], x)) {
      InsertPermutes(x, s[1..], lt);
      assert s == [s[0]] + s[1..];
    }
  }

  /** The result is a permutation of the input. */
  lemma {:induction false} SortPermutes<T>(s: seq<T>, lt: (T, T) -> bool)
    ensures multiset(Sort(s, lt)) == multiset(s)
  {
    if s != [] {
      SortPermutes(s[1..], lt);
      InsertPermutes(s[0], Sort(s[1..], lt), lt);
      assert s == [s[0]] + s[1..];
    }
  }

  lemma {:induction false} InsertSorted<T(!new)>(x: T, s: seq<T>, lt: (T, T) -> bool)
    requires StrictWeakOrder(lt) && Sorted(s, lt)
    ensures Sorted(Insert(x, s, lt), lt)
  {
    if s == [] || !lt(s[0], x) {
    } else {
      var t := Insert(x, s[1..], lt);
      InsertSorted(x, s[1..], lt);
      InsertPermutes(x, s[1..], lt);
      forall j | 0 <= j < |t| ensures !lt(t[j], s[0]) {
        assert t[j] in multiset(t);
        if t[j] != x {
          assert t[j] in multiset(s[1..]);
          var k :| 0 <= k < |s[1..]| && s[1..][k] == t[j];
          assert s[k + 1] == t[j];
        }
      }
      assert Insert(x, s, lt) == [s[0]] + t;
    }
  }

  /** The result is ordered by `lt`. */
  lemma {:induction false} SortSorted<T(!new)>(s: seq<T>, lt: (T, T) -> bool)
    requires StrictWeakOrder(lt)
    ensures Sorted(Sort(s, lt), lt)
  {
    if s != [] {
      SortSorted(s[1..], lt);
      InsertSorted(s[0], Sort(s[1..], lt), lt);
    }
  }

  /**
   * Stability at the head: the first element of the result is the EARLIEST
   * least element of the input (everything before it is strictly after it).
   */
  lemma {:induction false} SortHead<T(!new)>(s: seq<T>, lt: (T, T) -> bool) returns (k: nat)
    requires StrictWeakOrder(lt) && |s| > 0
    ensures k < |s| && Sort(s, lt)[0] == s[k]
    ensures forall j :: 0 <= j < |s| ==> !lt(s[j], s[k])
    ensures forall i :: 0 <= i < k ==> lt(s[k], s[i])
  {
    if |s| == 1 {
      k := 0;
    } else {
      var k' := SortHead(s[1..], lt);
      var t := Sort(s[1..], lt);
      if !lt(t[0], s[0]) {
        k := 0;
        forall j | 0 <= j < |s| ensures !lt(s[j], s[0]) {
          if j > 0 {
            assert s[j] == s[1..][j - 1];
          }
        }
      } else {
        k := k' + 1;
        forall j | 0 <= j < |s| ensures !lt(s[j], s[k]) {
          if j > 0 {
            assert s[j] == s[1..][j - 1];
          }
        }
        forall i | 0 <= i < k ensures lt(s[k], s[i]) {
          if i > 0 {
            assert s[i] == s[1..][i - 1];
          }
        }
      }
    }
  }

  /** In a sorted list the first element is not after any other, the last not before any other. */
  lemma SortedEnds<T(!new)>(s: seq<T>, lt: (T, T) -> bool)
    requires StrictWeakOrder(lt) && Sorted(s, lt) && |s| > 0
    ensures forall j :: 0 <= j < |s| ==> !lt(s[j], s[0]) && !lt(s[|s| - 1], s[j])
  {
  }

  // ---- Sorting by a three-valued rank: the result is the three buckets in order ----

  /** Inserting an element of rank `k` skips a prefix of lower ranks. */
  lemma {:induction false} InsertPastLower<T>(x: T, a: seq<T>, b: seq<T>, lt: (T, T) -> bool)
    requires forall i :: 0 <= i < |a| ==> lt(a[i], x)
    ensures Insert(x, a + b, lt) == a + Insert(x, b, lt)
  {
    if a != [] {
      assert (a + b)[0] == a[0];
      assert (a + b)[1..] == a[1..] + b;
      InsertPastLower(x, a[1..], b, lt);
      assert lt((a + b)[0], x);
      assert Insert(x, a + b, lt) == [a[0]] + Insert(x, (a + b)[1..], lt);
      assert a + Insert(x, b, lt) == [a[0]] + (a[1..] + Insert(x, b, lt));
    } else {
      assert a + b == b;
    }
  }

  /** The comparator `(a, b) => rank(a) - rank(b)`. */
  function ByRank<T>(rank: T -> int): (T, T) -> bool
  {
    (a, b) => rank(a) < rank(b)
  }

  function HasRank<T>(rank: T -> int, k: int): T -> bool
  {
    x => rank(x) == k
  }

  lemma ByRankIsStrictWeakOrder<T(!new)>(rank: T -> int)
    ensures StrictWeakOrder(ByRank(rank))
  {
  }

  /** Sorting by a rank lists the ranks in ascending order. */
  lemma SortByRankOrdered<T(!new)>(s: seq<T>, rank: T -> int)
    ensures forall i, j :: 0 <= i < j < |Sort(s, ByRank(rank))| ==>
      rank(Sort(s, ByRank(rank))[i]) <= rank(Sort(s, ByRank(rank))[j])
  {
    ByRankIsStrictWeakOrder(rank);
    SortSorted(s, ByRank(rank));
    var t := Sort(s, ByRank(rank));
    forall i, j | 0 <= i < j < |t| ensures rank(t[i]) <= rank(t[j]) {
      assert !ByRank(rank)(t[j], t[i]);
    }
  }

  /** Inserting into three rank buckets adds to the bucket of the element's rank, at its front. */
  lemma InsertIntoBuckets<T>(x: T, a: seq<T>, b: seq<T>, c: seq<T>, rank: T -> int)
    requires 0 <= rank(x) <= 2
    requires forall i :: 0 <= i < |a| ==> rank(a[i]) == 0
    requires forall i :: 0 <= i < |b| ==> rank(b[i]) == 1
    requires forall i :: 0 <= i < |c| ==> rank(c[i]) == 2
    ensures Insert(x, a + b + c, ByRank(rank))
         == (if rank(x) == 0 then [x] else []) + a
          + ((if rank(x) == 1 then [x] else []) + b)
          + ((if rank(x) == 2 then [x] else []) + c)
  {
    var lt := ByRank(rank);
    if rank(x) == 0 {
      assert a + b + c == [] || !lt((a + b + c)[0], x);
    } else if rank(x) == 1 {
      assert a + b + c == a + (b + c);
      InsertPastLower(x, a, b + c, lt);
      assert b + c == [] || !lt((b + c)[0], x);
    } else {
      InsertPastLower(x, a + b, c, lt);
      assert c == [] || !lt(c[0], x);
    }
  }

  /**
   * Stable sorting by a rank in {0, 1, 2} lists the rank-0 elements, then the
   * rank-1 elements, then the rank-2 elements, each group in input order.
   */
  lemma {:induction false} SortByRank3<T>(s: seq<T>, rank: T -> int)
    requires forall i :: 0 <= i < |s| ==> 0 <= rank(s[i]) <= 2
    ensures Sort(s, ByRank(rank))
         == Filter(s, HasRank(rank, 0)) + Filter(s, HasRank(rank, 1)) + Filter(s, HasRank(rank, 2))
  {
    if s != [] {
      var x, s' := s[0], s[1..];
      assert s == [x] + s';
      SortByRank3(s', rank);
      FilterCons(x, s', HasRank(rank, 0));
      FilterCons(x, s', HasRank(rank, 1));
      FilterCons(x, s', HasRank(rank, 2));
      InsertIntoBuckets(x, Filter(s', HasRank(rank, 0)), Filter(s', HasRank(rank, 1)),
                        Filter(s', HasRank(rank, 2)), rank);
    }
  }
}
