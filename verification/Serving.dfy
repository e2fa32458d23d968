/**
 What the users of `resallocserver/priority_queue.py` see: live tasks with a priority and an
 insertion number, and the order in which they are served.

 The class docstring promises the reverse order; this is the order of the code.
 */
module Serving {
  /** Tasks are told apart by their `repr`, so a task is modelled by the number that stands for it. */
  type Task = nat

  /** A live task's place in the queue. */
  datatype Item = Item(priority: int, number: nat)

  /** `a` is served before `b`: the higher priority first, then first in, first out. */
  predicate Ahead(a: Item, b: Item) {
    a.priority > b.priority || (a.priority == b.priority && a.number < b.number)
  }

  /** `k` is served before every other live task. */
  ghost predicate First(live: map<Task, Item>, k: Task) {
    k in live && forall j :: j in live && j != k ==> Ahead(live[k], live[j])
  }

  /** `q` lists tasks without repetition, each ahead of those after it. */
  ghost predicate InOrderOf(live: map<Task, Item>, q: seq<Task>) {
    forall i, j :: 0 <= i < j < |q| ==>
      q[i] in live && q[j] in live && q[i] != q[j] && Ahead(live[q[i]], live[q[j]])
  }

  /** `q` is what popping until the KeyError returns. */
  ghost predicate Drains(live: map<Task, Item>, q: seq<Task>)
    decreases |q|
  {
    if live == map[] then q == []
    else q != [] && First(live, q[0]) && Drains(live - {q[0]}, q[1..])
  }

  /** Draining returns every live task exactly once, in the order of `Ahead`. */
  lemma {:induction false} DrainedInOrder(live: map<Task, Item>, q: seq<Task>)
    requires Drains(live, q)
    ensures forall k :: k in q <==> k in live
    ensures InOrderOf(live, q)
    decreases |q|
  {
    if live != map[] {
      var less, rest := live - {q[0]}, q[1..];
      DrainedInOrder(less, rest);
      assert q == [q[0]] + rest;
      assert forall k :: k in q <==> k == q[0] || k in rest;
      forall i, j | 0 <= i < j < |q|
        ensures q[i] in live && q[j] in live && q[i] != q[j] && Ahead(live[q[i]], live[q[j]])
      {
        assert q[j] == rest[j - 1] && q[j] in rest && q[j] in less;
        if i > 0 { assert q[i] == rest[i - 1]; }
      }
    }
  }

  lemma OrderTail(live: map<Task, Item>, q: seq<Task>)
    requires q != [] && forall k :: k in q <==> k in live
    requires forall i, j :: 0 <= i < j < |q| ==> q[i] != q[j]
    ensures forall k :: k in q[1..] <==> k in live - {q[0]}
  {
    assert q == [q[0]] + q[1..];
    assert forall i :: 0 < i < |q| ==> q[i] != q[0];
    assert forall k :: k in q <==> k == q[0] || k in q[1..];
  }

  /** There is only one such order. */
  lemma {:induction false} OrderIsDrain(live: map<Task, Item>, q: seq<Task>)
    requires forall k :: k in q <==> k in live
    requires InOrderOf(live, q)
    ensures Drains(live, q)
    decreases |q|
  {
    if q == [] {
      assert live.Keys == {};
    } else {
      OrderTail(live, q);
      assert forall k :: k in live ==> k in q;
      assert q[0] in live;
      forall j | j in live && j != q[0] ensures Ahead(live[q[0]], live[j]) {
        var i :| 0 <= i < |q| && q[i] == j;
        assert i != 0;
      }
      TailOrdered(live, q);
      OrderIsDrain(live - {q[0]}, q[1..]);
    }
  }

  lemma TailOrdered(live: map<Task, Item>, q: seq<Task>)
    requires q != [] && forall k :: k in q <==> k in live
    requires InOrderOf(live, q)
    ensures var rest, less := q[1..], live - {q[0]};
            && (forall k :: k in rest <==> k in less)
            && InOrderOf(less, rest)
  {
    OrderTail(live, q);
    var rest, less := q[1..], live - {q[0]};
    forall i, j | 0 <= i < j < |rest|
      ensures rest[i] in less && rest[j] in less && rest[i] != rest[j] && Ahead(less[rest[i]], less[rest[j]])
    {
      assert rest[i] == q[i + 1] && rest[j] == q[j + 1];
      assert rest[i] in rest && rest[j] in rest;
    }
  }
}
