/**
 Go's container/heap over a slice of entry pointers, as the two queues use it.
 The slice, its Swap (which maintains every entry's index field) and the two
 Less functions belong to the queues; sift-up, sift-down, Push, Pop, Remove and
 Fix are the library's loops written out.
 */
module IndexedHeap {

  /** The value an entry carries: `at` is EnqueuedAt in the ready queue, NextRunAt in the delayed one. */
  datatype Item = Item(taskId: string, priority: int, at: int)

  /** The Less of a heap.Interface. */
  type Before = (Item, Item) -> bool

  /** What container/heap requires of Less: a strict weak order. */
  ghost predicate StrictWeak(less: Before) {
    && (forall a, b :: less(a, b) ==> !less(b, a))
    && (forall a, b, c :: !less(b, a) && !less(c, b) ==> !less(c, a))
  }

  function Parent(j: nat): (p: nat)
    ensures p < j || p == j == 0
  {
    if j == 0 then 0 else (j - 1) / 2
  }

  lemma Children(k: nat, i: nat)
    requires 0 < k
    ensures Parent(k) == i <==> k == 2 * i + 1 || k == 2 * i + 2
  {
  }

  /** Heap order on the first n values: none precedes its parent. */
  ghost predicate Ordered(less: Before, s: seq<Item>, n: nat)
    requires n <= |s|
  {
    forall j {:trigger Parent(j)} :: 0 <= j < n ==> !less(s[j], s[Parent(j)])
  }

  /** Heap order on the first n values except where s[hole] is concerned, and its children respect its parent. */
  ghost predicate OrderedAround(less: Before, s: seq<Item>, n: nat, hole: nat)
    requires n <= |s|
  {
    && (forall j {:trigger Parent(j)} :: 0 <= j < n && j != hole && Parent(j) != hole ==> !less(s[j], s[Parent(j)]))
    && (forall j {:trigger Parent(j)} :: 0 < hole && 0 < j < n && Parent(j) == hole ==> !less(s[j], s[Parent(hole)]))
  }

  ghost predicate FollowsParent(less: Before, s: seq<Item>, i: nat)
    requires i < |s|
  {
    !less(s[i], s[Parent(i)])
  }

  /** No child of position i precedes it. */
  ghost predicate ChildrenFollow(less: Before, s: seq<Item>, n: nat, i: nat)
    requires n <= |s|
  {
    forall j {:trigger Parent(j)} :: 0 < j < n && Parent(j) == i ==> !less(s[j], s[i])
  }

  /** The root of a heap is a least element: no member precedes it. */
  lemma {:induction false} RootIsLeast(less: Before, s: seq<Item>, j: nat)
    requires StrictWeak(less)
    requires Ordered(less, s, |s|) && j < |s|
    ensures !less(s[j], s[0])
  {
    if j > 0 {
      RootIsLeast(less, s, Parent(j));
    }
  }

  function Swapped<T>(s: seq<T>, i: nat, j: nat): (r: seq<T>)
    requires i < |s| && j < |s|
  {
    s[i := s[j]][j := s[i]]
  }

  /** t holds the values of s, those from n on where they were. */
  ghost predicate Rearranged(s: seq<Item>, t: seq<Item>, n: nat)
    requires n <= |s|
  {
    |t| == |s| && multiset(t) == multiset(s) && forall i :: n <= i < |s| ==> t[i] == s[i]
  }

  lemma DroppedLast(less: Before, s: seq<Item>, t: seq<Item>, n: nat)
    requires |s| == n + 1 && Rearranged(s, t, n) && Ordered(less, t, n)
    ensures Ordered(less, t[..n], n)
    ensures multiset(t[..n]) == multiset(s) - multiset{s[n]}
  {
    assert t == t[..n] + [t[n]];
  }

  lemma SwapUp(less: Before, s: seq<Item>, n: nat, j: nat)
    requires StrictWeak(less)
    requires 0 < j < n <= |s| && OrderedAround(less, s, n, j) && ChildrenFollow(less, s, n, j)
    requires less(s[j], s[Parent(j)])
    ensures var t := Swapped(s, Parent(j), j);
            OrderedAround(less, t, n, Parent(j)) && ChildrenFollow(less, t, n, Parent(j))
  {
    var p, t := Parent(j), Swapped(s, Parent(j), j);
    assert 0 < p ==> !less(s[p], s[Parent(p)]);
    forall k | 0 < k < n && Parent(k) == p
      ensures !less(t[k], t[p]) && (0 < p ==> !less(t[k], t[Parent(p)]))
    {
      assert k != j ==> !less(s[k], s[p]);
    }
    forall k | 0 <= k < n && k != p && Parent(k) != p
      ensures !less(t[k], t[Parent(k)])
    {
      assert Parent(k) != j ==> t[k] == s[k] && t[Parent(k)] == s[Parent(k)];
    }
  }

  lemma SwapWithLeastChild(less: Before, s: seq<Item>, n: nat, i: nat, j: nat)
    requires StrictWeak(less)
    requires 0 < j < n <= |s| && Parent(j) == i && OrderedAround(less, s, n, i)
    requires less(s[j], s[i])
    requires forall k {:trigger Parent(k)} :: 0 < k < n && Parent(k) == i ==> !less(s[k], s[j])
    ensures var t := Swapped(s, i, j);
            OrderedAround(less, t, n, j) && FollowsParent(less, t, j)
  {
  }

  /** Moving the last value of a heap into position i disturbs only position i. */
  lemma SwapOut(less: Before, s: seq<Item>, i: nat)
    requires StrictWeak(less) && 0 < |s| && Ordered(less, s, |s|) && i < |s| - 1
    ensures OrderedAround(less, Swapped(s, i, |s| - 1), |s| - 1, i)
  {
    var n, t := |s| - 1, Swapped(s, i, |s| - 1);
    forall j | 0 < i && 0 < j < n && Parent(j) == i ensures !less(t[j], t[Parent(i)]) {
      assert !less(s[j], s[Parent(j)]) && !less(s[i], s[Parent(i)]);
    }
  }

  lemma Appended(less: Before, s: seq<Item>)
    requires s != [] && Ordered(less, s[..|s| - 1], |s| - 1)
    ensures OrderedAround(less, s, |s|, |s| - 1) && ChildrenFollow(less, s, |s|, |s| - 1)
  {
    forall j {:trigger Parent(j)} | 0 <= j < |s| - 1 && Parent(j) != |s| - 1 ensures !less(s[j], s[Parent(j)]) {
      var t := s[..|s| - 1];
      assert !less(t[j], t[Parent(j)]);
    }
  }

  /** Changing one value of a heap disturbs only its position. */
  lemma Perturbed(less: Before, s: seq<Item>, i: nat, x: Item)
    requires StrictWeak(less) && i < |s| && Ordered(less, s, |s|)
    ensures OrderedAround(less, s[i := x], |s|, i)
  {
    forall j | 0 < i && 0 < j < |s| && Parent(j) == i ensures !less(s[j], s[Parent(i)]) {
      assert !less(s[j], s[Parent(j)]) && !less(s[i], s[Parent(i)]);
    }
  }

  /** The child that down compares with position i, when there is one. */
  predicate IsLeastChild(less: Before, s: seq<Item>, n: nat, i: nat, j: nat)
  {
    && 2 * i + 1 < n <= |s|
    && j == if 2 * i + 2 < n && less(s[2 * i + 2], s[2 * i + 1]) then 2 * i + 2 else 2 * i + 1
  }

  lemma SwapDown(less: Before, s: seq<Item>, n: nat, i: nat, j: nat)
    requires StrictWeak(less)
    requires IsLeastChild(less, s, n, i, j) && less(s[j], s[i]) && OrderedAround(less, s, n, i)
    ensures var t := Swapped(s, i, j);
            OrderedAround(less, t, n, j) && FollowsParent(less, t, j)
  {
    forall k | 0 < k < n && Parent(k) == i ensures !less(s[k], s[j]) {
      Children(k, i);
    }
    Children(j, i);
    SwapWithLeastChild(less, s, n, i, j);
  }

  lemma ChildrenSettled(less: Before, s: seq<Item>, n: nat, i: nat, j: nat)
    requires StrictWeak(less)
    requires n <= |s| && i < |s|
    requires n <= 2 * i + 1 || (IsLeastChild(less, s, n, i, j) && !less(s[j], s[i]))
    ensures ChildrenFollow(less, s, n, i)
  {
    forall k | 0 < k < n && Parent(k) == i ensures !less(s[k], s[i]) {
      Children(k, i);
    }
  }

  lemma Settled(less: Before, s: seq<Item>, n: nat, i: nat)
    requires StrictWeak(less)
    requires i < n <= |s| && OrderedAround(less, s, n, i) && ChildrenFollow(less, s, n, i)
    requires Parent(i) == i || FollowsParent(less, s, i)
    ensures Ordered(less, s, n)
  {
  }

  /** A slot's entry; index is the position that Swap, Push and Pop keep up to date. */
  datatype Entry = Entry(item: Item, index: int)

  function Values(es: seq<Entry>): (s: seq<Item>)
    ensures |s| == |es| && forall i :: 0 <= i < |es| ==> s[i] == es[i].item
  {
    seq(|es|, i requires 0 <= i < |es| => es[i].item)
  }

  /** The heap slice: a *readyHeap or *delayedHeap together with its heap.Interface methods. */
  class Heap {
    const less: Before
    var entries: seq<Entry>

    constructor (less: Before)
      ensures this.less == less && entries == []
    {
      this.less, this.entries := less, [];
    }

    /** Every entry's index field is its position. */
    ghost predicate Indexed()
      reads this
    {
      forall i :: 0 <= i < |entries| ==> entries[i].index == i
    }

    ghost predicate Valid()
      reads this
    {
      StrictWeak(less) && Indexed() && Ordered(less, Values(entries), |entries|)
    }

    predicate LessAt(i: nat, j: nat)
      requires i < |entries| && j < |entries|
      reads this
    {
      less(entries[i].item, entries[j].item)
    }

    method Swap(i: nat, j: nat)
      requires Indexed() && i < |entries| && j < |entries|
      modifies this
      ensures Indexed() && |entries| == |old(entries)|
      ensures Values(entries) == Swapped(old(Values(entries)), i, j)
    {
      entries := entries[i := entries[j]][j := entries[i]];
      entries := entries[i := entries[i].(index := i)];
      entries := entries[j := entries[j].(index := j)];
    }

    /** container/heap's up, on a slice of which the first n entries are the heap. */
    method Up(k: nat, ghost n: nat)
      requires StrictWeak(less) && Indexed() && k < n <= |entries|
      requires OrderedAround(less, Values(entries), n, k) && ChildrenFollow(less, Values(entries), n, k)
      modifies this
      ensures Indexed() && Rearranged(old(Values(entries)), Values(entries), n)
      ensures Ordered(less, Values(entries), n)
    {
      hide StrictWeak, Ordered, OrderedAround, ChildrenFollow;
      var j := k;
      ghost var s := Values(entries);
      while true
        invariant Indexed() && 0 <= j < n && s == Values(entries)
        invariant Rearranged(old(Values(entries)), s, n)
        invariant OrderedAround(less, s, n, j) && ChildrenFollow(less, s, n, j)
        decreases j
      {
        var i := Parent(j);
        if i == j || !LessAt(j, i) {
          Settled(less, s, n, j);
          break;
        }
        SwapUp(less, s, n, j);
        Swap(i, j);
        s := Swapped(s, i, j);
        j := i;
      }
    }

    /** One round of down's loop: the position of the sifted entry afterwards. */
    method SiftStep(i: nat, n: nat) returns (j: nat)
      requires StrictWeak(less) && Indexed() && i < n <= |entries|
      requires OrderedAround(less, Values(entries), n, i)
      modifies this
      ensures Indexed() && Rearranged(old(Values(entries)), Values(entries), n)
      ensures i <= j < n && OrderedAround(less, Values(entries), n, j)
      ensures if j == i then ChildrenFollow(less, Values(entries), n, i) && Values(entries) == old(Values(entries))
              else FollowsParent(less, Values(entries), j)
    {
      hide StrictWeak, Ordered, OrderedAround, ChildrenFollow, FollowsParent;
      ghost var s := Values(entries);
      j := 2 * i + 1;
      if j >= n {
        ChildrenSettled(less, s, n, i, 0);
        return i;
      }
      if j + 1 < n && LessAt(j + 1, j) {
        j := j + 1;
      }
      assert IsLeastChild(less, s, n, i, j);
      if !LessAt(j, i) {
        ChildrenSettled(less, s, n, i, j);
        return i;
      }
      SwapDown(less, s, n, i, j);
      Swap(i, j);
    }

    /** container/heap's down, on the first n entries. */
    method Down(i0: nat, n: nat) returns (moved: bool)
      requires StrictWeak(less) && Indexed() && i0 < n <= |entries|
      requires OrderedAround(less, Values(entries), n, i0)
      modifies this
      ensures Indexed() && Rearranged(old(Values(entries)), Values(entries), n)
      ensures moved || i0 == 0 ==> Ordered(less, Values(entries), n)
      ensures !moved ==> OrderedAround(less, Values(entries), n, i0) && ChildrenFollow(less, Values(entries), n, i0)
    {
      hide StrictWeak, Ordered, OrderedAround, ChildrenFollow, FollowsParent;
      var i := i0;
      while true
        invariant Indexed() && i0 <= i < n && Rearranged(old(Values(entries)), Values(entries), n)
        invariant OrderedAround(less, Values(entries), n, i) && (i == i0 || FollowsParent(less, Values(entries), i))
        decreases n - i
      {
        var j := SiftStep(i, n);
        if j == i {
          break;
        }
        i := j;
      }
      moved := i > i0;
      if moved || i0 == 0 {
        Settled(less, Values(entries), n, i);
      }
    }

    /** The pair of sifts that heap.Remove and heap.Fix share: down, and up if that moved nothing. */
    method Restore(i: nat, n: nat)
      requires StrictWeak(less) && Indexed() && i < n <= |entries|
      requires OrderedAround(less, Values(entries), n, i)
      modifies this
      ensures Indexed() && Rearranged(old(Values(entries)), Values(entries), n)
      ensures Ordered(less, Values(entries), n)
    {
      hide StrictWeak, Ordered, OrderedAround, ChildrenFollow, FollowsParent;
      var moved := Down(i, n);
      if !moved {
        Up(i, n);
      }
    }

    /** heap.Interface's Pop: drops the last slot. */
    method DropLast() returns (e: Entry)
      requires Indexed() && entries != []
      modifies this
      ensures e == Entry(old(entries[|entries| - 1].item), -1)
      ensures Indexed() && |entries| == |old(entries)| - 1 && Values(entries) == old(Values(entries))[..|entries|]
    {
      e := entries[|entries| - 1].(index := -1);
      entries := entries[..|entries| - 1];
    }

    /** heap.Push */
    method Push(item: Item)
      requires Valid()
      modifies this
      ensures Valid() && multiset(Values(entries)) == old(multiset(Values(entries))) + multiset{item}
    {
      hide StrictWeak, Ordered, OrderedAround, ChildrenFollow, FollowsParent;
      ghost var s := Values(entries) + [item];
      entries := entries + [Entry(item, |entries|)];
      assert Values(entries) == s;
      Appended(less, s);
      Up(|entries| - 1, |entries|);
    }

    /** heap.Pop */
    method Pop() returns (e: Entry)
      requires Valid() && entries != []
      modifies this
      ensures e == Entry(old(entries[0].item), -1)
      ensures Valid() && multiset(Values(entries)) == old(multiset(Values(entries))) - multiset{e.item}
      ensures |entries| == |old(entries)| - 1
    {
      hide StrictWeak, Ordered, OrderedAround, ChildrenFollow, FollowsParent;
      var n := |entries| - 1;
      ghost var s := Values(entries);
      if n > 0 {
        SwapOut(less, s, 0);
      }
      Swap(0, n);
      if n > 0 {
        var _ := Down(0, n);
      }
      DroppedLast(less, Swapped(s, 0, n), Values(entries), n);
      e := DropLast();
    }

    /** Moves entry i into the last slot, where the remaining entries form a heap. */
    method Isolate(i: nat)
      requires Valid() && i < |entries|
      modifies this
      ensures Indexed() && Rearranged(Swapped(old(Values(entries)), i, |old(entries)| - 1), Values(entries),
          |old(entries)| - 1)
      ensures Ordered(less, Values(entries), |entries| - 1)
    {
      hide StrictWeak, OrderedAround, ChildrenFollow, FollowsParent;
      var n := |entries| - 1;
      if n != i {
        SwapOut(less, Values(entries), i);
        Swap(i, n);
        Restore(i, n);
      }
    }

    /** heap.Remove */
    method Remove(i: nat) returns (e: Entry)
      requires Valid() && i < |entries|
      modifies this
      ensures e == Entry(old(entries[i].item), -1)
      ensures Valid() && multiset(Values(entries)) == old(multiset(Values(entries))) - multiset{e.item}
    {
      hide StrictWeak, Ordered, OrderedAround, ChildrenFollow, FollowsParent;
      var n := |entries| - 1;
      ghost var s := Values(entries);
      Isolate(i);
      DroppedLast(less, Swapped(s, i, n), Values(entries), n);
      e := DropLast();
    }

    /** The caller's write to an entry in place, before heap.Fix. */
    method SetAt(i: nat, x: Item)
      requires Indexed() && i < |entries|
      modifies this
      ensures Indexed() && Values(entries) == old(Values(entries))[i := x]
    {
      entries := entries[i := entries[i].(item := x)];
    }

    /** heap.Fix */
    method Fix(i: nat)
      requires StrictWeak(less) && Indexed() && i < |entries|
      requires OrderedAround(less, Values(entries), |entries|, i)
      modifies this
      ensures Valid() && multiset(Values(entries)) == old(multiset(Values(entries)))
    {
      Restore(i, |entries|);
    }
  }
}
