/**
 The heap of `resallocserver/priority_queue.py`.

 Comparing two entries never reaches the task field, because the insertion number before it is
 unique: that is why overwriting the task keeps the heap ordered.

 The heap operations of Python's `heapq` are written out as a plain binary heap.  Which of the
 possible heap layouts they leave is not observable: the order of entries is strict, so the
 entry that a pop returns is determined by the contents alone.
 */
module Heaps {
  import opened Collections
  import opened Serving

  class Entry {
    const key: int           // the negated priority
    const count: nat
    var task: Option<Task>   // `None` is the marker of a removed task

    constructor (key: int, count: nat, task: Task)
      ensures this.key == key && this.count == count && this.task == Some(task)
    {
      this.key := key;
      this.count := count;
      this.task := Some(task);
    }
  }

  /** The order of entries: lists are compared from the left, and the counts differ. */
  predicate Before(a: Entry, b: Entry) {
    a.key < b.key || (a.key == b.key && a.count < b.count)
  }

  function Parent(i: int): int
    requires 0 < i
  {
    (i - 1) / 2
  }

  /** The entry at `i` is not before its parent. */
  ghost predicate InOrder(h: seq<Entry>, i: int)
    requires 0 < i < |h|
  {
    !Before(h[i], h[Parent(i)])
  }

  ghost predicate Heap(h: seq<Entry>) {
    forall i :: 0 < i < |h| ==> InOrder(h, i)
  }

  /** The children of `hole`, if any, are not before the parent of `hole`, if any. */
  ghost predicate Bridged(h: seq<Entry>, hole: int)
    requires 0 <= hole < |h|
  {
    hole > 0 ==> forall c :: c in [2 * hole + 1, 2 * hole + 2] && c < |h| ==> !Before(h[c], h[Parent(hole)])
  }

  /** The heap order, except between position `hole` and its parent. */
  ghost predicate HeapAbove(h: seq<Entry>, hole: int)
    requires 0 <= hole < |h|
  {
    Bridged(h, hole) && forall i :: 0 < i < |h| && i != hole ==> InOrder(h, i)
  }

  /** The heap order, except between position `hole` and its children. */
  ghost predicate HeapBelow(h: seq<Entry>, hole: int)
    requires 0 <= hole < |h|
  {
    Bridged(h, hole) && forall i :: 0 < i < |h| && Parent(i) != hole ==> InOrder(h, i)
  }

  function Swap<X>(h: seq<X>, i: int, j: int): (r: seq<X>)
    requires 0 <= i < |h| && 0 <= j < |h|
    ensures multiset(r) == multiset(h)
  {
    h[i := h[j]][j := h[i]]
  }

  /** Nothing in a heap is before its first entry. */
  lemma {:induction false} HeapTop(h: seq<Entry>, i: nat)
    requires Heap(h) && i < |h|
    ensures !Before(h[i], h[0])
  {
    if i > 0 {
      HeapTop(h, Parent(i));
      assert InOrder(h, i);
    }
  }

  lemma TopIsLeast(h: seq<Entry>)
    requires Heap(h) && h != []
    ensures forall e :: e in h ==> !Before(e, h[0])
  {
    forall e | e in h ensures !Before(e, h[0]) {
      var i :| 0 <= i < |h| && h[i] == e;
      HeapTop(h, i);
    }
  }

  /** Moves the entry at `i` up to where the heap order holds. */
  function Rise(h: seq<Entry>, i: nat): (r: seq<Entry>)
    requires i < |h| && HeapAbove(h, i)
    ensures Heap(r) && multiset(r) == multiset(h)
    decreases i
  {
    if i > 0 && Before(h[i], h[Parent(i)]) then
      RiseStep(h, i);
      Rise(Swap(h, i, Parent(i)), Parent(i))
    else
      h
  }

  function HeapPush(h: seq<Entry>, e: Entry): (r: seq<Entry>)
    requires Heap(h)
    ensures Heap(r) && multiset(r) == multiset(h) + multiset{e}
  {
    assert forall i :: 0 < i < |h| && InOrder(h, i) ==> InOrder(h + [e], i);
    Rise(h + [e], |h|)
  }

  ghost predicate SmallerChild(h: seq<Entry>, i: nat, c: nat) {
    && (c == 2 * i + 1 || c == 2 * i + 2) && c < |h|
    && (2 * i + 1 < |h| ==> !Before(h[2 * i + 1], h[c]))
    && (2 * i + 2 < |h| ==> !Before(h[2 * i + 2], h[c]))
  }

  lemma RiseStep(h: seq<Entry>, i: nat)
    requires 0 < i < |h| && HeapAbove(h, i) && Before(h[i], h[Parent(i)])
    ensures HeapAbove(Swap(h, i, Parent(i)), Parent(i))
  {
    var p := Parent(i);
    var g := Swap(h, i, p);
    forall k | 0 < k < |g| && k != p ensures InOrder(g, k) {
      if Parent(k) != i && k != i { assert InOrder(h, k); }
    }
    if p > 0 {
      assert InOrder(h, p);
      forall c | c in [2 * p + 1, 2 * p + 2] && c < |g| ensures !Before(g[c], g[Parent(p)]) {
        assert Parent(c) == p;
        if c != i { assert InOrder(h, c); }
      }
    }
  }

  lemma SinkStep(h: seq<Entry>, i: nat, c: nat)
    requires i < |h| && HeapBelow(h, i) && SmallerChild(h, i, c) && Before(h[c], h[i])
    ensures HeapBelow(Swap(h, i, c), c)
  {
    var g := Swap(h, i, c);
    assert Parent(c) == i;
    forall k | 0 < k < |g| && Parent(k) != c ensures InOrder(g, k) {
      if Parent(k) != i && k != i { assert InOrder(h, k); }
    }
    forall d | d in [2 * c + 1, 2 * c + 2] && d < |g| ensures !Before(g[d], g[Parent(c)]) {
      assert Parent(d) == c;
      assert InOrder(h, d);
    }
  }

  /** Moves the entry at `i` down to where the heap order holds. */
  function Sink(h: seq<Entry>, i: nat): (r: seq<Entry>)
    requires i < |h| && HeapBelow(h, i)
    ensures Heap(r) && multiset(r) == multiset(h)
    decreases |h| - i
  {
    if 2 * i + 1 >= |h| then h else
    var c := if 2 * i + 2 < |h| && Before(h[2 * i + 2], h[2 * i + 1]) then 2 * i + 2 else 2 * i + 1;
    assert SmallerChild(h, i, c);
    if !Before(h[c], h[i]) then h else
    SinkStep(h, i, c);
    Sink(Swap(h, i, c), c)
  }

  /** The heap without its first entry: the last one takes its place and sinks. */
  function HeapPop(h: seq<Entry>): (r: seq<Entry>)
    requires h != [] && Heap(h)
    ensures Heap(r) && multiset(h) == multiset(r) + multiset{h[0]}
  {
    var last := |h| - 1;
    assert h == [h[0]] + h[1..];
    if last == 0 then [] else
    var moved := [h[last]] + h[1..last];
    assert h[1..] == h[1..last] + [h[last]];
    assert forall i :: 0 < i < |moved| && InOrder(h, i) && Parent(i) != 0 ==> InOrder(moved, i);
    Sink(moved, 0)
  }
}
