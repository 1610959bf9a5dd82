/** Generic sequence operations that the Swift standard library supplies:
    `filter`, `firstIndex(where:)`, index assignment, `sorted(by:)`. */
module Seqs {
  import opened Wrappers

  // ---------------------------------------------------------------------------
  // filter

  /** The elements of `s` that satisfy `f`, in their original order. */
  function Filter<T(!new)>(f: T -> bool, s: seq<T>): (r: seq<T>)
    ensures |r| <= |s|
    ensures forall x :: x in r <==> x in s && f(x)
    ensures forall x :: multiset(r)[x] == if f(x) then multiset(s)[x] else 0
    decreases s
  {
    if s == [] then []
    else
      var rest := Filter(f, s[1..]);
      assert s == [s[0]] + s[1..];
      assert multiset(s) == multiset{s[0]} + multiset(s[1..]);
      if f(s[0]) then [s[0]] + rest else rest
  }

  /** `a` is `b` with some elements deleted and the rest kept in order. */
  predicate IsSubseq<T(==)>(a: seq<T>, b: seq<T>)
    decreases |b|
  {
    if a == [] then true
    else if b == [] then false
    else if a[0] == b[0] then IsSubseq(a[1..], b[1..])
    else IsSubseq(a, b[1..])
  }

  lemma {:induction false} IsSubseqRefl<T>(s: seq<T>)
    ensures IsSubseq(s, s)
    decreases s
  {
    if s != [] {
      IsSubseqRefl(s[1..]);
    }
  }

  lemma {:induction false} FilterIsSubseq<T(!new)>(f: T -> bool, s: seq<T>)
    ensures IsSubseq(Filter(f, s), s)
    decreases s
  {
    if s != [] {
      FilterIsSubseq(f, s[1..]);
      var r := Filter(f, s);
      if f(s[0]) {
        assert r[1..] == Filter(f, s[1..]);
      } else if r != [] {
        assert r[0] in r;
      }
    }
  }

  /** Filtering with two pointwise-equal predicates gives the same sequence. */
  lemma {:induction false} FilterExt<T(!new)>(f: T -> bool, g: T -> bool, s: seq<T>)
    requires forall x :: x in s ==> f(x) == g(x)
    ensures Filter(f, s) == Filter(g, s)
    decreases s
  {
    if s != [] {
      FilterExt(f, g, s[1..]);
    }
  }

  /** A filter that keeps every element is the identity. */
  lemma {:induction false} FilterKeepsAll<T(!new)>(f: T -> bool, s: seq<T>)
    requires forall x :: x in s ==> f(x)
    ensures Filter(f, s) == s
    decreases s
  {
    if s != [] {
      FilterKeepsAll(f, s[1..]);
    }
  }

  /** Filtering a sequence that starts with `x`. */
  lemma FilterCons<T(!new)>(f: T -> bool, x: T, s: seq<T>)
    ensures Filter(f, [x] + s) == (if f(x) then [x] else []) + Filter(f, s)
  {
    assert ([x] + s)[1..] == s;
  }

  /** Two filters applied one after the other commute. */
  lemma {:induction false} FilterCommute<T(!new)>(f: T -> bool, g: T -> bool, s: seq<T>)
    ensures Filter(g, Filter(f, s)) == Filter(f, Filter(g, s))
    decreases s
  {
    if s != [] {
      var x, t := s[0], s[1..];
      assert s == [x] + t;
      FilterCommute(f, g, t);
      FilterCons(f, x, t);
      FilterCons(g, x, t);
      if f(x) {
        FilterCons(g, x, Filter(f, t));
      }
      if g(x) {
        FilterCons(f, x, Filter(g, t));
      }
    }
  }

  /** Two filters applied one after the other keep what their conjunction keeps. */
  lemma {:induction false} FilterFilter<T(!new)>(f: T -> bool, g: T -> bool, s: seq<T>)
    ensures Filter(g, Filter(f, s)) == Filter(x => f(x) && g(x), s)
    decreases s
  {
    if s != [] {
      FilterFilter(f, g, s[1..]);
      if f(s[0]) {
        assert Filter(f, s)[1..] == Filter(f, s[1..]);
      }
    }
  }

  /** Filtering twice keeps what it keeps in the original order. */
  lemma FilterFilterIsSubseq<T(!new)>(f: T -> bool, g: T -> bool, s: seq<T>)
    ensures IsSubseq(Filter(g, Filter(f, s)), s)
  {
    var both := (x: T) => f(x) && g(x);
    FilterFilter(f, g, s);
    FilterIsSubseq(both, s);
  }

  // ---------------------------------------------------------------------------
  // firstIndex(where:), index assignment, removal

  /** `k` is the first position of `s` whose element satisfies `p`. */
  ghost predicate IsFirst<T>(s: seq<T>, k: int, p: T -> bool) {
    0 <= k < |s| && p(s[k]) && forall j :: 0 <= j < k ==> !p(s[j])
  }

  /** The first position whose element satisfies `p`, if any. */
  function FirstIndex<T>(s: seq<T>, p: T -> bool): (r: Option<nat>)
    ensures r.None? <==> forall k :: 0 <= k < |s| ==> !p(s[k])
    ensures r.Some? ==> IsFirst(s, r.value, p)
    decreases s
  {
    if s == [] then None
    else if p(s[0]) then Some(0)
    else match FirstIndex(s[1..], p)
      case None => None
      case Some(i) => Some(i + 1)
  }

  /** There is at most one first position. */
  lemma IsFirstUnique<T>(s: seq<T>, k: int, m: int, p: T -> bool)
    requires IsFirst(s, k, p) && IsFirst(s, m, p)
    ensures k == m
  {
  }

  /** `s` with its first element satisfying `p` replaced by `f` of it; `s` itself when
      no element satisfies `p`. */
  function UpdateFirst<T>(s: seq<T>, p: T -> bool, f: T -> T): (r: seq<T>)
    ensures |r| == |s|
    ensures forall k :: 0 <= k < |s| ==> r[k] == if IsFirst(s, k, p) then f(s[k]) else s[k]
  {
    match FirstIndex(s, p)
    case None => s
    case Some(i) =>
      var r := s[i := f(s[i])];
      assert forall k :: 0 <= k < |s| && IsFirst(s, k, p) ==> k == i by {
        forall k | 0 <= k < |s| && IsFirst(s, k, p) ensures k == i {
          IsFirstUnique(s, k, i, p);
        }
      }
      r
  }

  /** Updating the first match twice with an involution that does not change the match
      gives back the original sequence. */
  lemma UpdateFirstTwice<T>(s: seq<T>, p: T -> bool, f: T -> T)
    requires forall x :: p(f(x)) == p(x)
    requires forall x :: f(f(x)) == x
    ensures UpdateFirst(UpdateFirst(s, p, f), p, f) == s
  {
    var once := UpdateFirst(s, p, f);
    forall k | 0 <= k < |s|
      ensures IsFirst(once, k, p) == IsFirst(s, k, p)
    {
      assert p(once[k]) == p(s[k]);
      assert forall j :: 0 <= j < k ==> p(once[j]) == p(s[j]);
    }
  }

  /** `s` without its first element satisfying `p`; `s` itself when there is none. */
  function RemoveFirst<T>(s: seq<T>, p: T -> bool): (r: seq<T>)
    ensures (forall k :: 0 <= k < |s| ==> !p(s[k])) ==> r == s
    ensures forall k :: IsFirst(s, k, p) ==> r == s[..k] + s[k + 1..]
  {
    match FirstIndex(s, p)
    case None => s
    case Some(i) =>
      assert forall k :: IsFirst(s, k, p) ==> k == i by {
        forall k | IsFirst(s, k, p) ensures k == i {
          IsFirstUnique(s, k, i, p);
        }
      }
      s[..i] + s[i + 1..]
  }

  // ---------------------------------------------------------------------------
  // sorted(by:)

  /** `le` is a total preorder: any two elements compare, and comparison is transitive. */
  ghost predicate TotalPreorder<T(!new)>(le: (T, T) -> bool) {
    && (forall a, b :: le(a, b) || le(b, a))
    && (forall a, b, c :: le(a, b) && le(b, c) ==> le(a, c))
  }

  /** Every element of `s` is `le` every later one. */
  ghost predicate SortedBy<T>(s: seq<T>, le: (T, T) -> bool) {
    forall i, j :: 0 <= i < j < |s| ==> le(s[i], s[j])
  }

  /** Helper: a sorted sequence stays sorted when an element below all of it is put
      in front. */
  lemma SortedCons<T>(y: T, s: seq<T>, le: (T, T) -> bool)
    requires SortedBy(s, le)
    requires forall k :: 0 <= k < |s| ==> le(y, s[k])
    ensures SortedBy([y] + s, le)
  {
    var r := [y] + s;
    forall i, j | 0 <= i < j < |r| ensures le(r[i], r[j]) {
      if i == 0 {
        assert r[j] == s[j - 1];
      } else {
        assert r[i] == s[i - 1] && r[j] == s[j - 1];
      }
    }
  }

  /** Filtering a sorted sequence leaves it sorted. */
  lemma {:induction false} FilterSorted<T(!new)>(f: T -> bool, s: seq<T>, le: (T, T) -> bool)
    requires SortedBy(s, le)
    ensures SortedBy(Filter(f, s), le)
    decreases s
  {
    if s != [] {
      var tail := s[1..];
      assert SortedBy(tail, le) by {
        forall i, j | 0 <= i < j < |tail| ensures le(tail[i], tail[j]) {
          assert tail[i] == s[i + 1] && tail[j] == s[j + 1];
        }
      }
      FilterSorted(f, tail, le);
      var rest := Filter(f, tail);
      if f(s[0]) {
        forall k | 0 <= k < |rest| ensures le(s[0], rest[k]) {
          assert rest[k] in tail;
          var j :| 0 <= j < |tail| && tail[j] == rest[k];
          assert s[j + 1] == rest[k];
        }
        SortedCons(s[0], rest, le);
      }
    }
  }

  /** Helper: the tail of a sorted sequence is sorted and lies above its head. */
  lemma SortedTail<T>(s: seq<T>, le: (T, T) -> bool)
    requires s != [] && SortedBy(s, le)
    ensures SortedBy(s[1..], le)
    ensures forall k :: 0 <= k < |s[1..]| ==> le(s[0], s[1..][k])
  {
    var tail := s[1..];
    forall i, j | 0 <= i < j < |tail| ensures le(tail[i], tail[j]) {
      assert tail[i] == s[i + 1] && tail[j] == s[j + 1];
    }
    forall k | 0 <= k < |tail| ensures le(s[0], tail[k]) {
      assert tail[k] == s[k + 1];
    }
  }

  /** Helper: a permutation of `s` plus `x` lies above `y` when `s` and `x` do. */
  lemma AboveAll<T>(y: T, x: T, s: seq<T>, r: seq<T>, le: (T, T) -> bool)
    requires le(y, x) && forall k :: 0 <= k < |s| ==> le(y, s[k])
    requires multiset(r) == multiset(s) + multiset{x}
    ensures forall k :: 0 <= k < |r| ==> le(y, r[k])
  {
    forall k | 0 <= k < |r| ensures le(y, r[k]) {
      assert r[k] in multiset(r);
      if r[k] != x {
        assert r[k] in multiset(s);
        var j :| 0 <= j < |s| && s[j] == r[k];
      }
    }
  }

  /** `x` inserted into the sorted sequence `s` at its place. */
  function InsertBy<T(!new)>(x: T, s: seq<T>, le: (T, T) -> bool): (r: seq<T>)
    requires TotalPreorder(le) && SortedBy(s, le)
    ensures SortedBy(r, le)
    ensures multiset(r) == multiset(s) + multiset{x}
    decreases s
  {
    if s == [] then [x]
    else if le(x, s[0]) then
      assert forall k :: 0 <= k < |s| ==> le(x, s[k]) by {
        forall k | 0 <= k < |s| ensures le(x, s[k]) {
          if k > 0 {
            assert le(s[0], s[k]);
          }
        }
      }
      SortedCons(x, s, le);
      [x] + s
    else
      var tail := s[1..];
      SortedTail(s, le);
      var rest := InsertBy(x, tail, le);
      AboveAll(s[0], x, tail, rest, le);
      SortedCons(s[0], rest, le);
      assert s == [s[0]] + tail;
      [s[0]] + rest
  }

  /** A sorted permutation of `s` (Swift's `sorted(by:)`; the order among elements that
      compare both ways is not specified by Swift and not relied on here). */
  function SortBy<T(!new)>(s: seq<T>, le: (T, T) -> bool): (r: seq<T>)
    requires TotalPreorder(le)
    ensures SortedBy(r, le)
    ensures multiset(r) == multiset(s) && |r| == |s|
    decreases s
  {
    if s == [] then []
    else
      assert s == [s[0]] + s[1..];
      InsertBy(s[0], SortBy(s[1..], le), le)
  }
}
