/**
 Small facts about finite collections that several parts of the model share: sums over a set,
 the ascending listing of a set of row ids, and the least number that is not in use.
 */
module Collections {

  datatype Option<+T> = None | Some(value: T)

  /** The sum of `f` over a finite set. */
  ghost function Sum<T(!new)>(s: set<T>, f: T -> int): int {
    if s == {} then 0 else
    var x :| x in s;
    f(x) + Sum(s - {x}, f)
  }

  /** The sum does not depend on which element is taken out first. */
  lemma {:induction false} SumRemove<T(!new)>(s: set<T>, f: T -> int, x: T)
    requires x in s
    ensures Sum(s, f) == f(x) + Sum(s - {x}, f)
    decreases s
  {
    var y :| y in s && Sum(s, f) == f(y) + Sum(s - {y}, f);
    if y != x {
      SumRemove(s - {y}, f, x);
      SumRemove(s - {x}, f, y);
      assert s - {y} - {x} == s - {x} - {y};
    }
  }

  /** Sums are monotone in the summand. */
  lemma {:induction false} SumMonotone<T(!new)>(s: set<T>, f: T -> int, g: T -> int)
    requires forall x :: x in s ==> f(x) <= g(x)
    ensures Sum(s, f) <= Sum(s, g)
    decreases s
  {
    if s != {} {
      var x :| x in s;
      SumRemove(s, f, x);
      SumRemove(s, g, x);
      SumMonotone(s - {x}, f, g);
    }
  }

  lemma SumStrict<T(!new)>(s: set<T>, f: T -> int, g: T -> int, x: T)
    requires x in s && f(x) < g(x) && forall y :: y in s ==> f(y) <= g(y)
    ensures Sum(s, f) < Sum(s, g)
  {
    SumRemove(s, f, x);
    SumRemove(s, g, x);
    SumMonotone(s - {x}, f, g);
  }

  ghost predicate IsLeast(s: set<nat>, m: nat) {
    m in s && forall y :: y in s ==> m <= y
  }

  lemma {:induction false} LeastExists(s: set<nat>)
    requires s != {}
    ensures exists m :: IsLeast(s, m)
    decreases s
  {
    var x :| x in s;
    var rest := s - {x};
    if rest == {} {
      forall y | y in s ensures x <= y { assert y !in rest; }
      assert IsLeast(s, x);
    } else {
      LeastExists(rest);
      var m :| IsLeast(rest, m);
      var least := if x < m then x else m;
      forall y | y in s ensures least <= y { assert y == x || y in rest; }
      assert IsLeast(s, least);
    }
  }

  ghost function Least(s: set<nat>): (m: nat)
    requires s != {}
    ensures IsLeast(s, m)
  {
    LeastExists(s);
    var m :| IsLeast(s, m);
    m
  }

  ghost predicate Increasing(q: seq<nat>) {
    forall i, j :: 0 <= i < j < |q| ==> q[i] < q[j]
  }

  /** `q` lists exactly the elements of `s`. */
  ghost predicate Lists(q: seq<nat>, s: set<nat>) {
    forall x :: x in q <==> x in s
  }

  /** The ids of a query result with `ORDER BY id ASC`. */
  ghost function Ascending(s: set<nat>): (q: seq<nat>)
    ensures Lists(q, s) && Increasing(q)
  {
    if s == {} then [] else [Least(s)] + Ascending(s - {Least(s)})
  }

  function Elements(q: seq<nat>): set<nat> { set x | x in q }

  /** What a loop over a listing has picked after `i` rounds, when it picks the elements of `chosen`. */
  function Picked(q: seq<nat>, i: nat, chosen: set<nat>): set<nat>
    requires i <= |q|
  {
    Elements(q[..i]) * chosen
  }

  lemma PickedNext(q: seq<nat>, i: nat, chosen: set<nat>)
    requires i < |q|
    ensures Picked(q, i + 1, chosen) == if q[i] in chosen then Picked(q, i, chosen) + {q[i]} else Picked(q, i, chosen)
    ensures Increasing(q) ==> q[i] !in Picked(q, i, chosen)
  {
    assert q[..i + 1] == q[..i] + [q[i]];
  }

  /** A listing of what is picked stays one. */
  lemma PickedListGrows(q: seq<nat>, i: nat, chosen: set<nat>, out: seq<nat>)
    requires i < |q| && Increasing(q) && Increasing(out) && Lists(out, Picked(q, i, chosen)) && q[i] in chosen
    ensures Increasing(out + [q[i]]) && Lists(out + [q[i]], Picked(q, i + 1, chosen))
  {
    PickedNext(q, i, chosen);
    forall k | 0 <= k < |out| ensures out[k] < q[i] {
      assert out[k] in out;
    }
  }

  lemma PickedListNone(q: seq<nat>, chosen: set<nat>)
    ensures Increasing([]) && Lists([], Picked(q, 0, chosen))
  {
  }

  /** Before the first round nothing is picked, and after the last everything. */
  lemma PickedEnds(q: seq<nat>, all: set<nat>, chosen: set<nat>)
    requires Lists(q, all) && chosen <= all
    ensures Picked(q, 0, chosen) == {} && Picked(q, |q|, chosen) == chosen
    ensures forall i :: 0 <= i < |q| ==> q[i] in all
  {
    assert q[..|q|] == q;
    forall i | 0 <= i < |q| ensures q[i] in all { assert q[i] in q; }
  }

  lemma {:induction false} ElementsSize(q: seq<nat>)
    requires Increasing(q)
    ensures |Elements(q)| == |q|
    decreases |q|
  {
    if q != [] {
      var last := |q| - 1;
      assert q == q[..last] + [q[last]];
      ElementsSize(q[..last]);
      assert q[last] !in q[..last];
      assert Elements(q) == Elements(q[..last]) + {q[last]};
    }
  }

  lemma AscendingSize(s: set<nat>)
    ensures |Ascending(s)| == |s|
  {
    ElementsSize(Ascending(s));
    assert Elements(Ascending(s)) == s;
  }

  function Min(a: int, b: int): int { if a < b then a else b }

  /** All but the `keep` greatest elements. */
  ghost function AllBut(s: set<nat>, keep: nat): (some: set<nat>)
    ensures some <= s
  {
    var q := Ascending(s);
    if |q| <= keep then {} else Elements(q[..|q| - keep])
  }

  /** What comes first in an increasing listing is less than the rest. */
  lemma SplitIncreasing(q: seq<nat>, k: nat)
    requires Increasing(q) && k <= |q|
    ensures |Elements(q) - Elements(q[..k])| == |q| - k
    ensures forall a, b :: a in Elements(q[..k]) && b in Elements(q) - Elements(q[..k]) ==> a < b
  {
    assert q == q[..k] + q[k..];
    assert Elements(q[..k]) !! Elements(q[k..]);
    assert Elements(q) - Elements(q[..k]) == Elements(q[k..]);
    ElementsSize(q[k..]);
  }

  lemma AllButSplits(s: set<nat>, keep: nat)
    ensures |s - AllBut(s, keep)| == Min(|s|, keep)
    ensures forall a, b :: a in AllBut(s, keep) && b in s - AllBut(s, keep) ==> a < b
  {
    var q := Ascending(s);
    AscendingSize(s);
    hide Ascending, Increasing;
    assert Elements(q) == s;
    if |q| > keep {
      SplitIncreasing(q, |q| - keep);
    } else {
      assert s - AllBut(s, keep) == s;
    }
  }

  lemma IncreasingTail(q: seq<nat>, s: set<nat>)
    requires q != [] && Increasing(q) && Lists(q, s)
    ensures IsLeast(s, q[0])
    ensures Increasing(q[1..]) && Lists(q[1..], s - {q[0]})
  {
    assert q == [q[0]] + q[1..];
    forall x | x in q[1..] ensures x != q[0] {
      var j :| 0 <= j < |q| - 1 && q[1..][j] == x;
      assert q[0] < q[j + 1];
    }
    forall y | y in s ensures q[0] <= y {
      assert y in q;
      var j :| 0 <= j < |q| && q[j] == y;
    }
  }

  /** An increasing listing is determined by its elements. */
  lemma {:induction false} AscendingUnique(q: seq<nat>, s: set<nat>)
    requires Increasing(q) && Lists(q, s)
    ensures q == Ascending(s)
    decreases |q|
  {
    if q == [] {
      assert s == {};
    } else {
      IncreasingTail(q, s);
      var m, rest := q[0], q[1..];
      assert m == Least(s) && s != {};
      AscendingUnique(rest, s - {m});
      assert q == [m] + rest;
    }
  }

  /** A query with `ORDER BY id ASC`, run over the ids that satisfy its filter. */
  method ListAscending(s: set<nat>) returns (q: seq<nat>)
    ensures q == Ascending(s)
  {
    q := [];
    var rest := s;
    while rest != {}
      invariant rest <= s
      invariant Lists(q, s - rest)
      invariant Increasing(q)
      invariant forall x, y :: x in q && y in rest ==> x < y
      decreases rest
    {
      LeastExists(rest);
      var m: nat :| m in rest && forall y :: y in rest ==> m <= y;
      assert IsLeast(rest, m);
      forall i | 0 <= i < |q| ensures q[i] < m { assert q[i] in q; }
      q := q + [m];
      rest := rest - {m};
    }
    assert s - rest == s;
    AscendingUnique(q, s);
  }

  /** `n` is the smallest number that `used` does not hold. */
  ghost predicate SmallestFree(used: set<nat>, n: nat) {
    n !in used && forall k: nat :: k < n ==> k in used
  }

  /** There always is a smallest free number. */
  ghost function Smallest(used: set<nat>): (n: nat)
    ensures SmallestFree(used, n)
  {
    SmallestExists(used, {}, 0);
    var n :| SmallestFree(used, n);
    n
  }

  lemma {:induction false} SmallestExists(used: set<nat>, tried: set<nat>, n: nat)
    requires tried <= used && forall k: nat :: k in tried <==> k < n
    ensures exists m :: SmallestFree(used, m)
    decreases used - tried
  {
    if n in used {
      SmallestExists(used, tried + {n}, n + 1);
    } else {
      assert SmallestFree(used, n);
    }
  }

  lemma {:induction false} InitialSegment(n: nat) returns (s: set<nat>)
    ensures |s| == n
    ensures forall k: nat :: k in s <==> k < n
  {
    if n == 0 {
      s := {};
    } else {
      var t := InitialSegment(n - 1);
      s := t + {n - 1};
    }
  }

  lemma SubsetSize<T>(a: set<T>, b: set<T>)
    requires a <= b
    ensures |a| <= |b|
  {
    assert b == a + (b - a);
  }

  /** The pigeonhole bound: the smallest free number never exceeds the number of used ones. */
  lemma SmallestFreeBound(used: set<nat>, n: nat)
    requires SmallestFree(used, n)
    ensures n <= |used|
  {
    var s := InitialSegment(n);
    SubsetSize(s, used);
  }

  /** An image has at most as many elements as its domain. */
  lemma {:induction false} ImageBound<A(!new), B>(s: set<A>, f: A -> B, image: set<B>)
    requires forall y :: y in image ==> exists x :: x in s && f(x) == y
    ensures |image| <= |s|
    decreases s
  {
    if s == {} {
      assert image == {};
    } else {
      var x :| x in s;
      ImageBound(s - {x}, f, image - {f(x)});
    }
  }
}
