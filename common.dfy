/** Small shared vocabulary: optional values, results, clock units and
    sequence helpers used by every table and job of the aggregator. */
module Common {

  /** A value that may be absent (Python's `None`). */
  datatype Option<+T> = None | Some(value: T)

  /** The outcome of an operation that can fail with an error value. */
  datatype Result<+T, +E> = Ok(value: T) | Err(error: E)

  /** How a run of a background job ended: skipped because another run
      holds the lock, skipped because there was no work, finished, or
      stopped by a failed commit (the error is re-raised). */
  datatype JobOutcome = Locked | NothingToDo | Completed | Failed

  /** Time is measured in whole minutes since an arbitrary epoch. */
  const MinutesPerDay: int := 1440

  /** The number of elements of `s` that satisfy `p` (a SQL `count()` over a filter). */
  function CountWhere<T>(s: seq<T>, p: T -> bool): (n: nat)
    ensures n <= |s|
  {
    if s == [] then 0 else (if p(s[0]) then 1 else 0) + CountWhere(s[1..], p)
  }

  lemma {:induction false} CountWhereAppend<T>(s: seq<T>, t: seq<T>, p: T -> bool)
    ensures CountWhere(s + t, p) == CountWhere(s, p) + CountWhere(t, p)
  {
    if s != [] {
      assert (s + t)[1..] == s[1..] + t;
      CountWhereAppend(s[1..], t, p);
    } else {
      assert s + t == t;
    }
  }

  lemma {:induction false} CountWherePositive<T>(s: seq<T>, p: T -> bool)
    ensures CountWhere(s, p) > 0 <==> exists i :: 0 <= i < |s| && p(s[i])
  {
    if s != [] {
      CountWherePositive(s[1..], p);
      if !p(s[0]) && exists i :: 0 <= i < |s| && p(s[i]) {
        var i :| 0 <= i < |s| && p(s[i]);
        assert s[1..][i - 1] == s[i];
      }
    }
  }

  /** The elements of `s` that satisfy `p`, in order (a SQL `filter`). */
  function Filter<T(!new)>(s: seq<T>, p: T -> bool): (r: seq<T>)
    ensures |r| <= |s|
    ensures forall x :: x in r <==> x in s && p(x)
  {
    if s == [] then [] else (if p(s[0]) then [s[0]] else []) + Filter(s[1..], p)
  }

  lemma {:induction false} FilterMultiset<T(!new)>(s: seq<T>, p: T -> bool)
    ensures forall x :: multiset(Filter(s, p))[x] == if p(x) then multiset(s)[x] else 0
  {
    if s != [] {
      FilterMultiset(s[1..], p);
      assert s == [s[0]] + s[1..];
    }
  }

  /** `s` with its element at position `i` deleted. */
  function RemoveAt<T>(s: seq<T>, i: nat): (r: seq<T>)
    requires i < |s|
    ensures |r| == |s| - 1
    ensures forall k :: 0 <= k < i ==> r[k] == s[k]
    ensures forall k :: i <= k < |r| ==> r[k] == s[k + 1]
  {
    s[..i] + s[i + 1..]
  }

  /** No element occurs twice. */
  predicate Distinct<T(==)>(s: seq<T>) {
    forall i, j :: 0 <= i < j < |s| ==> s[i] != s[j]
  }

  /** A list without repeats stays so when an element it lacks is put in front. */
  lemma DistinctCons<T>(x: T, s: seq<T>)
    requires Distinct(s) && x !in s
    ensures Distinct([x] + s)
  {
    var t := [x] + s;
    forall a, b | 0 <= a < b < |t|
      ensures t[a] != t[b]
    {
      assert t[b] == s[b - 1];
      if a > 0 {
        assert t[a] == s[a - 1];
      }
    }
  }

  /** A prefix grown by the next element. */
  lemma PrefixSnoc<T>(s: seq<T>, i: nat)
    requires i < |s|
    ensures s[..i] + [s[i]] == s[..i + 1]
  {
    assert (s[..i] + [s[i]])[i] == s[..i + 1][i];
  }

  function Min(a: int, b: int): int { if a <= b then a else b }

  /** A list cut into consecutive slices of at most `size` elements, the
      way the batch jobs slice `items[start:start + size]`. */
  function Batches<T>(q: seq<T>, size: nat): (bs: seq<seq<T>>)
    requires size > 0
    ensures forall j :: 0 <= j < |bs| ==> 0 < |bs[j]| <= size
    decreases |q|
  {
    if q == [] then [] else [q[..Min(size, |q|)]] + Batches(q[Min(size, |q|)..], size)
  }

  /** The batches of a suffix: the first is the next slice, the others are the batches after it. */
  lemma BatchesFrom<T>(q: seq<T>, start: nat, size: nat)
    requires size > 0 && start < |q|
    ensures var end := Min(start + size, |q|);
            Batches(q[start..], size) == [q[start..end]] + Batches(q[end..], size)
  {
    var end := Min(start + size, |q|);
    assert q[start..][..Min(size, |q[start..]|)] == q[start..end] && q[start..][Min(size, |q[start..]|)..] == q[end..];
  }

  function Flatten<T>(bs: seq<seq<T>>): seq<T>
    decreases |bs|
  {
    if bs == [] then [] else bs[0] + Flatten(bs[1..])
  }

  /** The batches cover the list exactly once, in order. */
  lemma {:induction false} BatchesPartition<T>(q: seq<T>, size: nat)
    requires size > 0
    ensures Flatten(Batches(q, size)) == q
    decreases |q|
  {
    if q != [] {
      var end := Min(size, |q|);
      BatchesPartition(q[end..], size);
      assert Batches(q, size)[1..] == Batches(q[end..], size);
      assert q == q[..end] + q[end..];
    }
  }
}
