/**
 * The three operations the in-memory work queues (`VecDeque`s) are built
 * from: an in-order scan for the first element that may go now, removal by
 * index, and `retain`.
 */
module WorkQueue {
  import opened Wrappers

  /** How long (ms) the dispatch and rmbpost workers sleep between rounds, and the wait they accept. */
  const Period: nat := 2000

  /** Index of the first element, in queue order, that is ready to go; None when none is. */
  function FirstEligible<T>(q: seq<T>, ready: T -> bool): (r: Option<nat>)
    ensures r.Some? ==> r.value < |q| && ready(q[r.value])
    ensures r.Some? ==> forall j :: 0 <= j < r.value ==> !ready(q[j])
    ensures r.None? <==> forall j :: 0 <= j < |q| ==> !ready(q[j])
    decreases |q|
  {
    if q == [] then None
    else if ready(q[0]) then Some(0)
    else match FirstEligible(q[1..], ready)
      case None => None
      case Some(i) => Some(i + 1)
  }

  /**
   * `for (index, x) in queue.iter().enumerate() { if ready(x) { return Some(index) } }`:
   * the scan the workers run before removing the element they found.
   */
  method FindFirst<T>(q: seq<T>, ready: T -> bool) returns (r: Option<nat>)
    ensures r == FirstEligible(q, ready)
  {
    var index := 0;
    while index < |q|
      invariant 0 <= index <= |q|
      invariant forall j :: 0 <= j < index ==> !ready(q[j])
    {
      if ready(q[index]) {
        return Some(index);
      }
      index := index + 1;
    }
    return None;
  }

  /** `VecDeque::remove(index)`: the element at `index` leaves, the others keep their order. */
  function RemoveAt<T>(q: seq<T>, index: nat): (r: seq<T>)
    requires index < |q|
    ensures |r| == |q| - 1
    ensures forall j :: 0 <= j < index ==> r[j] == q[j]
    ensures forall j :: index <= j < |r| ==> r[j] == q[j + 1]
  {
    q[..index] + q[index + 1..]
  }

  /** Removal by index takes out exactly one occurrence of the removed element. */
  lemma RemoveAtMultiset<T>(q: seq<T>, index: nat)
    requires index < |q|
    ensures multiset(RemoveAt(q, index)) + multiset{q[index]} == multiset(q)
  {
    assert q == q[..index] + [q[index]] + q[index + 1..];
  }

  /** `VecDeque::retain(keep)`: the elements for which `keep` holds, in their order. */
  function Retain<T>(q: seq<T>, keep: T -> bool): (r: seq<T>)
    ensures |r| <= |q|
    ensures forall j :: 0 <= j < |r| ==> keep(r[j]) && r[j] in q
    ensures forall j :: 0 <= j < |q| && keep(q[j]) ==> q[j] in r
    decreases |q|
  {
    if q == [] then []
    else (if keep(q[0]) then [q[0]] else []) + Retain(q[1..], keep)
  }

  /** Retain works element by element, so it distributes over concatenation: order is kept. */
  lemma {:induction false} RetainAppend<T>(a: seq<T>, b: seq<T>, keep: T -> bool)
    ensures Retain(a + b, keep) == Retain(a, keep) + Retain(b, keep)
    decreases |a|
  {
    if a == [] {
      assert a + b == b;
    } else {
      assert (a + b)[1..] == a[1..] + b;
      RetainAppend(a[1..], b, keep);
    }
  }

  /** Every kept element keeps all its occurrences; every other element loses all of them. */
  lemma {:induction false} RetainCounts<T>(q: seq<T>, keep: T -> bool, x: T)
    ensures multiset(Retain(q, keep))[x] == if keep(x) then multiset(q)[x] else 0
    decreases |q|
  {
    if q != [] {
      RetainCounts(q[1..], keep, x);
      assert q == [q[0]] + q[1..];
    }
  }

  /** Retaining twice with the same test removes nothing more. */
  lemma RetainIdempotent<T>(q: seq<T>, keep: T -> bool)
    ensures Retain(Retain(q, keep), keep) == Retain(q, keep)
  {
    RetainAllKept(Retain(q, keep), keep);
  }

  /** When every element passes the test, retain changes nothing. */
  lemma {:induction false} RetainAllKept<T>(q: seq<T>, keep: T -> bool)
    requires forall j :: 0 <= j < |q| ==> keep(q[j])
    ensures Retain(q, keep) == q
    decreases |q|
  {
    if q != [] {
      RetainAllKept(q[1..], keep);
      assert [q[0]] + q[1..] == q;
    }
  }
}
