/** The priority queue that holds the timers: a binary heap in a vector, smallest time first. */
module PriorityQueue {

  /** The queue's element: `time` is what is left of the countdown. */
  datatype Timer = Timer(id: nat, timeout: real, target: nat, oneShot: bool, time: real)

  function Parent(i: nat): (p: nat)
    requires i > 0
    ensures p < i
  {
    (i - 1) / 2
  }

  /** The heap order, for the children of `lo` and of every later position. */
  ghost predicate HeapFrom(c: seq<Timer>, lo: nat) {
    forall i :: 0 < i < |c| && Parent(i) >= lo ==> c[Parent(i)].time <= c[i].time
  }

  ghost predicate Heap(c: seq<Timer>) {
    HeapFrom(c, 0)
  }

  /** The head of a heap is its smallest element. */
  lemma {:induction false} HeadIsLeast(c: seq<Timer>, i: nat)
    requires Heap(c) && i < |c|
    ensures c[0].time <= c[i].time
  {
    if i > 0 {
      HeadIsLeast(c, Parent(i));
    }
  }

  function Swap(c: seq<Timer>, i: nat, j: nat): (r: seq<Timer>)
    requires i < |c| && j < |c|
    ensures multiset(r) == multiset(c) && |r| == |c|
  {
    c[i := c[j]][j := c[i]]
  }

  /** The heap order but for the edge above `hole`, whose children are already above its parent's time. */
  ghost predicate HeapAbove(c: seq<Timer>, hole: nat) {
    && (forall j :: 0 < j < |c| && j != hole ==> c[Parent(j)].time <= c[j].time)
    && (hole > 0 ==> forall j :: 0 < j < |c| && Parent(j) == hole ==> c[Parent(hole)].time <= c[j].time)
  }

  lemma Rise(c: seq<Timer>, hole: nat)
    requires 0 < hole < |c| && HeapAbove(c, hole) && c[hole].time < c[Parent(hole)].time
    ensures HeapAbove(Swap(c, hole, Parent(hole)), Parent(hole))
  {
    var r, p := Swap(c, hole, Parent(hole)), Parent(hole);
    forall j | 0 < j < |r| && j != p
      ensures r[Parent(j)].time <= r[j].time
    {
      if Parent(j) != hole && j != hole {
        assert r[j] == c[j];
      }
    }
    forall j | p > 0 && 0 < j < |r| && Parent(j) == p
      ensures r[Parent(p)].time <= r[j].time
    {
      assert r[Parent(p)] == c[Parent(p)];
      assert c[Parent(p)].time <= c[p].time;
    }
  }

  /** The step of `std::push_heap`: the last element rises to its place. */
  method SiftUp(c: seq<Timer>) returns (r: seq<Timer>)
    requires c != [] && Heap(c[..|c| - 1])
    ensures Heap(r) && multiset(r) == multiset(c) && |r| == |c|
  {
    hide Swap;
    r := c;
    var i := |c| - 1;
    assert forall j :: 0 < j < |c| - 1 ==> c[..|c| - 1][Parent(j)].time <= c[..|c| - 1][j].time;
    while i > 0 && r[i].time < r[Parent(i)].time
      invariant 0 <= i < |r| == |c| && multiset(r) == multiset(c)
      invariant HeapAbove(r, i)
    {
      Rise(r, i);
      r := Swap(r, i, Parent(i));
      i := Parent(i);
    }
  }

  /** The heap order from `lo` on, but for the children of `hole`, which are still above the parent of `hole`. */
  ghost predicate HeapBut(c: seq<Timer>, lo: nat, hole: nat) {
    && (forall j :: 0 < j < |c| && Parent(j) >= lo && Parent(j) != hole ==> c[Parent(j)].time <= c[j].time)
    && (hole > 0 && Parent(hole) >= lo ==> forall j :: 0 < j < |c| && Parent(j) == hole ==>
        c[Parent(hole)].time <= c[j].time)
  }

  lemma Sink(c: seq<Timer>, lo: nat, hole: nat, child: nat)
    requires hole < child < |c| && Parent(child) == hole >= lo && HeapBut(c, lo, hole)
    requires c[child].time < c[hole].time
    requires forall j :: 0 < j < |c| && Parent(j) == hole ==> c[child].time <= c[j].time
    ensures HeapBut(Swap(c, hole, child), lo, child)
  {
    var r := Swap(c, hole, child);
    forall j | 0 < j < |r| && Parent(j) >= lo && Parent(j) != child
      ensures r[Parent(j)].time <= r[j].time
    {
      if Parent(j) != hole && j != hole {
        assert r[j] == c[j] && r[Parent(j)] == c[Parent(j)];
      }
    }
    forall j | 0 < j < |r| && Parent(j) == child
      ensures r[Parent(child)].time <= r[j].time
    {
      assert r[j] == c[j];
    }
  }

  /** The step of `std::pop_heap` and `std::make_heap`: the element at `lo` sinks to its place. */
  method SiftDown(c: seq<Timer>, lo: nat) returns (r: seq<Timer>)
    requires lo < |c| && HeapFrom(c, lo + 1)
    ensures HeapFrom(r, lo) && multiset(r) == multiset(c) && |r| == |c|
  {
    hide Swap;
    r := c;
    var i := lo;
    while 2 * i + 1 < |r|
      invariant lo <= i < |r| == |c| && multiset(r) == multiset(c)
      invariant HeapBut(r, lo, i)
      decreases |r| - i
    {
      var child := 2 * i + 1;
      if child + 1 < |r| && r[child + 1].time < r[child].time {
        child := child + 1;
      }
      if r[i].time <= r[child].time {
        return;
      }
      Sink(r, lo, i, child);
      r := Swap(r, i, child);
      i := child;
    }
  }

  method MakeHeap(c: seq<Timer>) returns (r: seq<Timer>)
    ensures Heap(r) && multiset(r) == multiset(c) && |r| == |c|
  {
    r := c;
    var i := |c| / 2;
    while i > 0
      invariant 0 <= i <= |c| == |r| && multiset(r) == multiset(c)
      invariant HeapFrom(r, i)
    {
      i := i - 1;
      r := SiftDown(r, i);
    }
  }

  class PriorityQueue {
    var c: seq<Timer>

    ghost predicate Valid()
      reads this
    {
      Heap(c)
    }

    constructor ()
      ensures Valid() && c == []
    {
      c := [];
    }

    method Push(v: Timer)
      requires Valid()
      modifies this
      ensures Valid() && multiset(c) == multiset(old(c)) + multiset{v}
    {
      c := c + [v];
      assert c[..|c| - 1] == old(c);
      c := SiftUp(c);
    }

    method Pop()
      requires Valid() && c != []
      modifies this
      ensures Valid() && multiset(c) == multiset(old(c)) - multiset{old(c)[0]}
    {
      var last := |c| - 1;
      var head := c[0];
      c := Swap(c, 0, last);
      assert c == c[..last] + [head];
      c := c[..last];
      if c != [] {
        c := SiftDown(c, 0);
      }
    }

    method Erase(i: nat)
      requires Valid() && i < |c|
      modifies this
      ensures Valid() && multiset(c) == multiset(old(c)) - multiset{old(c)[i]}
    {
      assert c == c[..i] + [c[i]] + c[i + 1..];
      c := MakeHeap(c[..i] + c[i + 1..]);
    }

    function Top(): (t: Timer)
      reads this
      requires c != []
      ensures t in c
    {
      c[0]
    }
  }
}
