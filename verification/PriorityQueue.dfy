/**
 Class `PriorityQueue` of `resallocserver/priority_queue.py`: a heap of entries with lazy deletion.

 An entry is shared between the heap and the finder.  Removing a task overwrites the entry's
 task with a marker and leaves the entry where it is in the heap; popping skips marked entries.
 */
module PriorityQueues {
  import opened Collections
  import opened Heaps
  import opened Serving

  /** What a caller sees of a live entry. */
  ghost function Shown(e: Entry): Item {
    Item(-e.key, e.count)
  }

  /** The counts of entries are below the counter and tell the entries apart. */
  ghost predicate Numbered(entries: set<Entry>, counter: nat) {
    && (forall e :: e in entries ==> e.count < counter)
    && (forall e, f :: e in entries && f in entries && e.count == f.count ==> e == f)
  }

  /** The finder holds exactly the live entries, each under its task. */
  ghost predicate FinderExact(entries: set<Entry>, finder: map<Task, Entry>)
    reads entries
  {
    && (forall k :: k in finder ==> finder[k] in entries && finder[k].task == Some(k))
    && (forall e :: e in entries && e.task.Some? ==> e.task.value in finder && finder[e.task.value] == e)
  }

  ghost predicate Shows(live: map<Task, Item>, finder: map<Task, Entry>) {
    && (forall k :: k in live ==> k in finder && live[k] == Shown(finder[k]))
    && (forall k :: k in finder ==> k in live)
  }

  /** The representation invariant: `live` is what the heap and the finder stand for. */
  ghost predicate Represents(h: seq<Entry>, entries: set<Entry>, finder: map<Task, Entry>, counter: nat,
                             live: map<Task, Item>)
    reads entries
  {
    && Heap(h) && multiset(h) == multiset(entries)
    && Numbered(entries, counter)
    && FinderExact(entries, finder)
    && Shows(live, finder)
  }

  lemma Pushed(h: seq<Entry>, entries: set<Entry>, finder: map<Task, Entry>, counter: nat, live: map<Task, Item>,
               e: Entry, task: Task)
    requires Represents(h, entries, finder, counter, live)
    requires e !in entries && e.count == counter && e.task == Some(task) && task !in live
    ensures Heap(h)
    ensures Represents(HeapPush(h, e), entries + {e}, finder[task := e], counter + 1, live[task := Shown(e)])
  {
    hide HeapPush, Heap, Numbered, FinderExact, Shows;
    PushedContents(entries, finder, counter, live, e, task);
  }

  lemma PushedContents(entries: set<Entry>, finder: map<Task, Entry>, counter: nat, live: map<Task, Item>, e: Entry,
                       task: Task)
    requires Numbered(entries, counter) && FinderExact(entries, finder) && Shows(live, finder)
    requires e !in entries && e.count == counter && e.task == Some(task) && task !in live
    ensures multiset(entries + {e}) == multiset(entries) + multiset{e}
    ensures Numbered(entries + {e}, counter + 1) && FinderExact(entries + {e}, finder[task := e])
    ensures Shows(live[task := Shown(e)], finder[task := e])
  {
  }

  lemma PoppedContents(h: seq<Entry>, entries: set<Entry>)
    requires Heap(h) && h != [] && multiset(h) == multiset(entries)
    ensures h[0] in entries && |HeapPop(h)| < |h|
    ensures multiset(HeapPop(h)) == multiset(entries - {h[0]})
  {
    var e, rest := h[0], HeapPop(h);
    assert e in multiset(h);
    assert |multiset(h)| == |multiset(rest)| + 1;
    assert multiset(rest) == multiset(h) - multiset{e};
    assert multiset(entries - {e}) == multiset(entries) - multiset{e};
  }

  lemma Popped(h: seq<Entry>, entries: set<Entry>, finder: map<Task, Entry>, counter: nat, live: map<Task, Item>)
    requires Represents(h, entries, finder, counter, live) && h != []
    ensures Heap(h)
    ensures h[0] in entries && |HeapPop(h)| < |h|
    ensures h[0].task.None? ==> Represents(HeapPop(h), entries - {h[0]}, finder, counter, live)
    ensures h[0].task.Some? ==>
      var k := h[0].task.value;
      Represents(HeapPop(h), entries - {h[0]}, finder - {k}, counter, live - {k})
  {
    PoppedContents(h, entries);
  }

  /** The entry at the top of the heap, if live, is the first live task. */
  lemma TopIsFirst(h: seq<Entry>, entries: set<Entry>, finder: map<Task, Entry>, counter: nat, live: map<Task, Item>)
    requires Represents(h, entries, finder, counter, live) && h != [] && h[0].task.Some?
    ensures First(live, h[0].task.value)
  {
    var e := h[0];
    TopIsLeast(h);
    assert e in multiset(h);
    forall j | j in live && j != e.task.value ensures Ahead(live[e.task.value], live[j]) {
      var f := finder[j];
      assert f in multiset(h) && f in h;
      assert f.count != e.count;
    }
  }

  lemma SameTasks(h: seq<Entry>, entries: set<Entry>, finder: map<Task, Entry>, counter: nat, live: map<Task, Item>)
    requires Represents(h, entries, finder, counter, live)
    ensures live.Keys == finder.Keys
  {
  }

  lemma EmptyHeap(entries: set<Entry>, finder: map<Task, Entry>, counter: nat, live: map<Task, Item>)
    requires Represents([], entries, finder, counter, live)
    ensures live == map[]
  {
    assert forall e :: e in entries ==> e in multiset(entries);
    assert live.Keys == {};
  }

  class PriorityQueue {
    var prioQueue: seq<Entry>
    var entryFinder: map<Task, Entry>
    var counter: nat
    ghost var entries: set<Entry>    // what the heap is made of
    ghost var live: map<Task, Item>  // the queue as callers see it

    ghost predicate Valid()
      reads this, entries
    {
      Represents(prioQueue, entries, entryFinder, counter, live)
    }

    constructor ()
      ensures Valid() && live == map[] && counter == 0 && entries == {}
    {
      prioQueue := [];
      entryFinder := map[];
      counter := 0;
      entries := {};
      live := map[];
    }

    method AddTask(task: Task, priority: int)
      requires Valid()
      modifies this, entries
      ensures Valid() && fresh(entries - old(entries))
      ensures counter == old(counter) + 1
      ensures live == old(live)[task := Item(priority, old(counter))]
    {
      hide Represents;
      SameTasks(prioQueue, entries, entryFinder, counter, live);
      ghost var others := live - {task};
      if task in entryFinder {
        var _ := RemoveTask(task);
      }
      assert live == others;
      PushEntry(task, priority);
    }

    /** The second half of `add_task`: a new entry for a task that is not in the queue. */
    method PushEntry(task: Task, priority: int)
      requires Valid() && task !in live
      modifies this
      ensures Valid() && fresh(entries - old(entries))
      ensures counter == old(counter) + 1
      ensures live == old(live)[task := Item(priority, old(counter))]
    {
      hide Represents;
      var entry := new Entry(-priority, counter, task);
      Pushed(prioQueue, entries, entryFinder, counter, live, entry, task);
      prioQueue, entries, entryFinder, live, counter :=
        HeapPush(prioQueue, entry), entries + {entry}, entryFinder[task := entry],
        live[task := Shown(entry)], counter + 1;
    }

    /** False is the KeyError of `remove_task`. */
    method RemoveTask(task: Task) returns (found: bool)
      requires Valid()
      modifies this, entries
      ensures Valid() && entries == old(entries) && counter == old(counter)
      ensures found == (task in old(live))
      ensures live == old(live) - {task}
    {
      if task !in entryFinder {
        return false;
      }
      var entry := entryFinder[task];
      entryFinder, live := entryFinder - {task}, live - {task};
      entry.task := None;
      return true;
    }

    /** `None` is the KeyError of `pop_task` for an empty queue. */
    method PopTask() returns (task: Option<Task>)
      requires Valid()
      modifies this
      ensures Valid() && entries <= old(entries) && counter == old(counter)
      ensures task.None? <==> old(live) == map[]
      ensures task.None? ==> live == map[]
      ensures task.Some? ==> First(old(live), task.value) && live == old(live) - {task.value}
    {
      hide Represents;
      while prioQueue != []
        invariant Valid() && entries <= old(entries) && counter == old(counter)
        invariant live == old(live)
        decreases |prioQueue|
      {
        task := PopEntry();
        if task.Some? {
          return;
        }
      }
      EmptyHeap(entries, entryFinder, counter, live);
      task := None;
    }

    /** One round of `pop_task`: the top entry leaves the heap, and the finder too if it is live. */
    method PopEntry() returns (task: Option<Task>)
      requires Valid() && prioQueue != []
      modifies this
      ensures Valid() && entries <= old(entries) && counter == old(counter)
      ensures |prioQueue| < |old(prioQueue)|
      ensures task.None? ==> live == old(live)
      ensures task.Some? ==> First(old(live), task.value) && live == old(live) - {task.value}
    {
      hide Represents;
      Popped(prioQueue, entries, entryFinder, counter, live);
      var entry := prioQueue[0];
      task := entry.task;
      if task.Some? {
        TopIsFirst(prioQueue, entries, entryFinder, counter, live);
        var k := task.value;
        prioQueue, entries, entryFinder, live :=
          HeapPop(prioQueue), entries - {entry}, entryFinder - {k}, live - {k};
      } else {
        prioQueue, entries := HeapPop(prioQueue), entries - {entry};
      }
    }
  }
}
