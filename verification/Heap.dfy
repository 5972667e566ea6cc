/** The index-tracking binary heap behind the timers. */
module Heap {
  import opened Options

  /** A strict weak order: asymmetric, and not being greater is transitive. */
  ghost predicate Weak<D(!new)>(less: (D, D) -> bool) {
    && (forall x, y :: less(x, y) ==> !less(y, x))
    && (forall x, y, z :: !less(y, x) && !less(z, y) ==> !less(z, x))
  }

  predicate Le<D>(less: (D, D) -> bool, x: D, y: D) {
    !less(y, x)
  }

  function Parent(i: nat): nat
    requires i > 0
  {
    (i - 1) / 2
  }

  /** The element at i is not less than its parent. */
  predicate Edge<D>(less: (D, D) -> bool, s: seq<D>, i: nat)
    requires 0 < i < |s|
  {
    Le(less, s[Parent(i)], s[i])
  }

  predicate Ordered<D>(less: (D, D) -> bool, s: seq<D>) {
    forall i :: 0 < i < |s| ==> Edge(less, s, i)
  }

  /** The children of k are not less than the parent of k. */
  predicate Spanned<D>(less: (D, D) -> bool, s: seq<D>, k: nat)
    requires k < |s|
  {
    k > 0 ==> forall i :: 0 < i < |s| && Parent(i) == k ==> Le(less, s[Parent(k)], s[i])
  }

  /** In order except where k is too small, too large, or either. */
  predicate OrderedAbove<D>(less: (D, D) -> bool, s: seq<D>, k: nat)
    requires k < |s|
  {
    (forall i :: 0 < i < |s| && i != k ==> Edge(less, s, i)) && Spanned(less, s, k)
  }

  predicate OrderedBelow<D>(less: (D, D) -> bool, s: seq<D>, k: nat)
    requires k < |s|
  {
    (forall i :: 0 < i < |s| && Parent(i) != k ==> Edge(less, s, i)) && Spanned(less, s, k)
  }

  predicate OrderedAround<D>(less: (D, D) -> bool, s: seq<D>, k: nat)
    requires k < |s|
  {
    (forall i :: 0 < i < |s| && i != k && Parent(i) != k ==> Edge(less, s, i)) && Spanned(less, s, k)
  }

  function Swapped<T>(s: seq<T>, a: nat, b: nat): (r: seq<T>)
    requires a < |s| && b < |s|
    ensures |r| == |s|
  {
    s[a := s[b]][b := s[a]]
  }

  lemma SwappedMultiset<T>(s: seq<T>, a: nat, b: nat)
    requires a < |s| && b < |s|
    ensures multiset(Swapped(s, a, b)) == multiset(s)
  {
  }

  /** Changing one value disturbs the order around it only. */
  lemma ChangedAround<D(!new)>(less: (D, D) -> bool, s: seq<D>, k: nat, x: D)
    requires Weak(less) && Ordered(less, s) && k < |s|
    ensures OrderedAround(less, s[k := x], k)
  {
    forall i | 0 < i < |s| && Parent(i) == k && k > 0
      ensures Le(less, s[Parent(k)], s[i])
    {
      assert Edge(less, s, i) && Edge(less, s, k);
    }
    forall i | 0 < i < |s| && i != k && Parent(i) != k
      ensures Edge(less, s[k := x], i)
    {
      assert Edge(less, s, i);
    }
  }

  /** One step up: the element at k is less than its parent and they change places. */
  lemma StepUp<D(!new)>(less: (D, D) -> bool, s: seq<D>, k: nat)
    requires Weak(less) && 0 < k < |s| && OrderedAround(less, s, k) && less(s[k], s[Parent(k)])
    ensures OrderedAbove(less, Swapped(s, Parent(k), k), Parent(k))
  {
    var p, t := Parent(k), Swapped(s, Parent(k), k);
    forall i | 0 < i < |t| && i != p
      ensures Edge(less, t, i)
    {
      if Parent(i) != k && i != k {
        assert Edge(less, s, i);
      }
    }
    if p > 0 {
      assert Edge(less, s, p);
      forall i | 0 < i < |t| && Parent(i) == p
        ensures Le(less, t[Parent(p)], t[i])
      {
        if i != k {
          assert Edge(less, s, i);
        }
      }
    }
  }

  lemma AboveAround<D(!new)>(less: (D, D) -> bool, s: seq<D>, k: nat)
    requires k < |s| && OrderedAbove(less, s, k)
    ensures OrderedAround(less, s, k)
    ensures k == 0 || Edge(less, s, k) ==> Ordered(less, s)
  {
  }

  /** The element that started at `from` has risen to k; `above` tells whether it only had to rise. */
  predicate Rising<D>(less: (D, D) -> bool, s: seq<D>, from: nat, k: nat, above: bool)
    requires from < |s| && k < |s|
  {
    if k == from then OrderedAround(less, s, from) && (above ==> OrderedAbove(less, s, from))
    else OrderedAbove(less, s, k)
  }

  lemma RiseStep<D(!new)>(less: (D, D) -> bool, s: seq<D>, from: nat, k: nat, above: bool)
    requires Weak(less) && 0 < k <= from < |s| && Rising(less, s, from, k, above) && less(s[k], s[Parent(k)])
    ensures Rising(less, Swapped(s, Parent(k), k), from, Parent(k), above)
  {
    if k != from {
      AboveAround(less, s, k);
    }
    StepUp(less, s, k);
  }

  lemma RiseEnd<D(!new)>(less: (D, D) -> bool, s: seq<D>, from: nat, k: nat, above: bool)
    requires Weak(less) && k <= from < |s| && Rising(less, s, from, k, above) && (k > 0 ==> !less(s[k], s[Parent(k)]))
    ensures OrderedBelow(less, s, from) && (k != from || above ==> Ordered(less, s))
  {
    if k != from || above {
      AboveAround(less, s, k);
      forall i | 0 < i < |s| && Parent(i) == from && from > 0
        ensures Le(less, s[Parent(from)], s[i])
      {
        assert Edge(less, s, i) && Edge(less, s, from);
      }
    }
  }

  /** One step down: the least child c of k is less than k and they change places. */
  lemma StepDown<D(!new)>(less: (D, D) -> bool, s: seq<D>, k: nat, c: nat)
    requires Weak(less) && 0 < c < |s| && Parent(c) == k && OrderedBelow(less, s, k) && less(s[c], s[k])
    requires forall i :: 0 < i < |s| && Parent(i) == k ==> Le(less, s[c], s[i])
    ensures OrderedBelow(less, Swapped(s, c, k), c)
  {
    var t := Swapped(s, c, k);
    forall i | 0 < i < |t| && Parent(i) != c
      ensures Edge(less, t, i)
    {
      if Parent(i) != k && i != k {
        assert Edge(less, s, i);
      }
    }
    forall i | 0 < i < |t| && Parent(i) == c
      ensures Le(less, t[Parent(c)], t[i])
    {
      assert Edge(less, s, i);
    }
  }

  /** No step down: the least child is not less. */
  lemma StopDown<D(!new)>(less: (D, D) -> bool, s: seq<D>, k: nat, c: nat)
    requires Weak(less) && 0 < c < |s| && Parent(c) == k && OrderedBelow(less, s, k) && !less(s[c], s[k])
    requires forall i :: 0 < i < |s| && Parent(i) == k ==> Le(less, s[c], s[i])
    ensures Ordered(less, s)
  {
  }

  lemma NoChildren<D>(less: (D, D) -> bool, s: seq<D>, k: nat)
    requires k < |s| && OrderedBelow(less, s, k) && 2 * k + 1 >= |s|
    ensures Ordered(less, s)
  {
  }

  /** The top of an ordered heap is least. */
  lemma {:induction false} TopLeast<D(!new)>(less: (D, D) -> bool, s: seq<D>, i: nat)
    requires Weak(less) && Ordered(less, s) && i < |s|
    ensures Le(less, s[0], s[i])
    decreases i
  {
    if i == 0 {
      assert !less(s[0], s[0]);
    } else {
      assert Edge(less, s, i);
      TopLeast(less, s, Parent(i));
    }
  }

  /** A run of removals: states before and after each, and what was taken. */
  ghost predicate Removals<D(!new)>(less: (D, D) -> bool, states: seq<seq<D>>, taken: seq<D>) {
    && |states| == |taken| + 1
    && (forall i :: 0 <= i < |states| ==> Ordered(less, states[i]))
    && (forall i :: 0 <= i < |taken| ==> states[i] != [] && taken[i] == states[i][0])
    && (forall i :: 0 <= i < |taken| ==> multiset(states[i]) == multiset(states[i + 1]) + multiset{taken[i]})
  }

  /** Repeated removal of the top yields the elements in order. */
  lemma {:induction false} RemovalsSorted<D(!new)>(less: (D, D) -> bool, states: seq<seq<D>>, taken: seq<D>, i: nat,
                                                   j: nat)
    requires Weak(less) && Removals(less, states, taken) && i <= j < |taken|
    ensures Le(less, taken[i], taken[j]) && multiset(states[j]) <= multiset(states[i])
    decreases j - i
  {
    if i < j {
      RemovalsSorted(less, states, taken, i + 1, j);
    }
    assert states[j][0] in multiset(states[j]);
    assert taken[j] in multiset(states[i]);
    var k :| 0 <= k < |states[i]| && states[i][k] == taken[j];
    TopLeast(less, states[i], k);
  }

  class Node<D> {
    var index: int
    var data: D

    constructor (index: int, data: D)
      ensures this.index == index && this.data == data
    {
      this.index, this.data := index, data;
    }
  }

  class Heap<D(!new)> {
    const less: (D, D) -> bool
    var nodes: seq<Node<D>>
    ghost var data: seq<D>
    ghost var owned: set<Node<D>>

    constructor (less: (D, D) -> bool)
      ensures Valid() && this.less == less && data == [] && nodes == []
    {
      this.less, nodes, data, owned := less, [], [], {};
    }

    /** Every node knows its place, and `data` lists what the nodes refer to. */
    ghost predicate Valid()
      reads this, owned
    {
      && |data| == |nodes|
      && (forall i :: 0 <= i < |nodes| ==> nodes[i] in owned && nodes[i].index == i && nodes[i].data == data[i])
    }

    /** swap_nodes_heap */
    method SwapNodes(a: nat, b: nat)
      requires Valid() && a < |nodes| && b < |nodes|
      modifies this`nodes, this`data, owned`index
      ensures Valid() && nodes == Swapped(old(nodes), a, b) && data == Swapped(old(data), a, b)
      ensures multiset(nodes) == multiset(old(nodes)) && multiset(data) == multiset(old(data))
    {
      SwappedMultiset(nodes, a, b);
      SwappedMultiset(data, a, b);
      if a == b {
        return;
      }
      var alpha, beta := nodes[a], nodes[b];
      alpha.index, beta.index := beta.index, alpha.index;
      nodes := nodes[a := beta][b := alpha];
      data := Swapped(data, a, b);
    }

    /** cascade_up_heap; afterwards only what is below `from` can be out of order, and not even that if it moved. */
    method CascadeUp(from: nat)
      requires Valid() && Weak(less) && from < |data| && OrderedAround(less, data, from)
      modifies this`nodes, this`data, owned`index
      ensures Valid() && multiset(nodes) == multiset(old(nodes)) && multiset(data) == multiset(old(data))
      ensures |data| == |old(data)| && OrderedBelow(less, data, from)
      ensures old(OrderedAbove(less, data, from)) ==> Ordered(less, data)
    {
      if |nodes| < 2 || from < 1 {
        return;
      }
      ghost var above := OrderedAbove(less, data, from);
      var child := from;
      var parent := (child - 1) / 2;
      while less(nodes[child].data, nodes[parent].data)
        invariant Valid() && multiset(nodes) == multiset(old(nodes)) && multiset(data) == multiset(old(data))
        invariant |data| == |old(data)| && 0 < child <= from && parent == Parent(child)
        invariant Rising(less, data, from, child, above)
        decreases child
      {
        RiseStep(less, data, from, child, above);
        hide Rising, Weak;
        SwapNodes(parent, child);
        child := parent;
        if child < 1 {
          RiseEnd(less, data, from, child, above);
          return;
        }
        parent := (child - 1) / 2;
      }
      RiseEnd(less, data, from, child, above);
    }

    /** The child to compare with: the only one, or the lesser of two, the right one if neither is less. */
    method LeastChild(parent: nat) returns (child: nat, only: bool)
      requires Valid() && Weak(less) && 2 * parent + 1 < |data|
      ensures 0 < child < |data| && Parent(child) == parent && child > parent && (only <==> 2 * parent + 2 >= |data|)
      ensures forall i :: 0 < i < |data| && Parent(i) == parent ==> Le(less, data[child], data[i])
    {
      var left, right := 2 * parent + 1, 2 * parent + 2;
      only := right >= |nodes|;
      assert forall i :: 0 < i < |data| && Parent(i) == parent ==> i == left || i == right;
      if only {
        child := left;
      } else {
        var compare := less(nodes[left].data, nodes[right].data);
        child := if compare then left else right;
      }
      assert !less(data[child], data[child]);
    }

    /** cascade_down_heap */
    method CascadeDown(from: nat) returns (result: int)
      requires Valid() && Weak(less) && (|data| >= 2 ==> from < |data| && OrderedBelow(less, data, from))
      modifies this`nodes, this`data, owned`index
      ensures Valid() && multiset(nodes) == multiset(old(nodes)) && multiset(data) == multiset(old(data))
      ensures |data| == |old(data)| && Ordered(less, data) && result == 0
    {
      if |nodes| < 2 {
        return 0;
      }
      var parent, run := from, true;
      while run
        invariant Valid() && multiset(nodes) == multiset(old(nodes)) && multiset(data) == multiset(old(data))
        invariant |data| == |old(data)| && 0 <= parent < |data|
        invariant if run then OrderedBelow(less, data, parent) else Ordered(less, data)
        decreases run, |data| - parent
      {
        hide Ordered, OrderedBelow, Weak;
        if 2 * parent + 1 >= |nodes| {
          NoChildren(less, data, parent);
          return 0;
        }
        var child, only := LeastChild(parent);
        if less(nodes[child].data, nodes[parent].data) {
          StepDown(less, data, parent, child);
          SwapNodes(child, parent);
          if only {
            NoChildren(less, data, child);
          }
          run := !only;
        } else {
          StopDown(less, data, parent, child);
          run := false;
        }
        parent := child;
      }
      return 0;
    }

    /** va_add_to_heap: the result is the index at which the element starts its way up. */
    method Add(d: Option<D>) returns (result: int)
      requires Valid() && Weak(less) && Ordered(less, data)
      modifies this`nodes, this`data, this`owned, owned`index
      ensures Valid() && Ordered(less, data) && fresh(owned - old(owned))
      ensures if d.None? then
          result == -1 && data == old(data) && nodes == old(nodes)
        else result == |old(data)| && multiset(data) == multiset(old(data)) + multiset{d.value}
    {
      if d.None? {
        return -1;
      }
      var n := new Node(|nodes|, d.value);
      result := |nodes|;
      nodes := nodes + [n];
      owned := owned + {n};
      data := data + [d.value];
      assert forall i :: 0 < i < |old(data)| ==> Edge(less, data, i) == Edge(less, old(data), i);
      CascadeUp(|nodes| - 1);
    }

    /** update_node_on_heap: a changed key is repaired whichever way it changed. */
    method UpdateNode(index: int, d: Option<D>) returns (result: int)
      requires Valid() && Weak(less) && Ordered(less, data)
      modifies this`nodes, this`data, owned`index, owned`data
      ensures Valid() && Ordered(less, data)
      ensures if d.None? || index < 0 || index >= |old(data)| then
          result == -1 && data == old(data) && nodes == old(nodes)
        else
          result == 0 && multiset(data) == multiset(old(data)[index := d.value])
          && multiset(nodes) == multiset(old(nodes))
    {
      if d.None? || index < 0 || index >= |nodes| {
        return -1;
      }
      ChangedAround(less, data, index, d.value);
      SetData(index, d.value);
      CascadeUp(index);
      result := CascadeDown(index);
    }

    method SetData(index: nat, d: D)
      requires Valid() && index < |data|
      modifies this`data, owned`data
      ensures Valid() && data == old(data)[index := d]
    {
      nodes[index].data := d;
      data := data[index := d];
    }

    /** update_top_of_heap; the heap must not be empty. */
    method UpdateTop(d: Option<D>) returns (result: int)
      requires Valid() && Weak(less) && Ordered(less, data) && (d.Some? ==> data != [])
      modifies this`nodes, this`data, owned`index, owned`data
      ensures Valid() && Ordered(less, data)
      ensures if d.None? then
          result == -1 && data == old(data) && nodes == old(nodes)
        else
          result == 0 && multiset(data) == multiset(old(data)[0 := d.value])
          && multiset(nodes) == multiset(old(nodes))
    {
      if d.None? {
        return -1;
      }
      ChangedAround(less, data, 0, d.value);
      SetData(0, d.value);
      result := CascadeDown(0);
    }

    /** remove_top_of_heap: a least element goes. */
    method RemoveTop() returns (r: Option<D>)
      requires Valid() && Weak(less) && Ordered(less, data)
      modifies this`nodes, this`data, owned`index
      ensures Valid() && Ordered(less, data)
      ensures if old(data) == [] then r.None? && data == []
        else r == Some(old(data)[0]) && multiset(old(data)) == multiset(data) + multiset{r.value}
      ensures r.Some? ==> forall i :: 0 <= i < |old(data)| ==> Le(less, r.value, old(data)[i])
    {
      if |nodes| == 0 {
        return None;
      }
      r := Some(nodes[0].data);
      forall i | 0 <= i < |data|
        ensures Le(less, r.value, data[i])
      {
        TopLeast(less, data, i);
      }
      var last := |nodes| - 1;
      SwapNodes(0, last);
      nodes[last].index := -1;
      nodes := nodes[..last];
      data := data[..last];
      LastDropped(less, old(data), data);
      var _ := CascadeDown(0);
    }
  }

  /** The last element in place of the top: what remains is in order but for the top. */
  lemma LastDropped<D(!new)>(less: (D, D) -> bool, s: seq<D>, t: seq<D>)
    requires Weak(less) && Ordered(less, s) && s != [] && t == Swapped(s, 0, |s| - 1)[..|s| - 1]
    ensures t != [] ==> OrderedBelow(less, t, 0)
    ensures multiset(s) == multiset(t) + multiset{s[0]}
  {
    var u := Swapped(s, 0, |s| - 1);
    SwappedMultiset(s, 0, |s| - 1);
    assert u == t + [s[0]];
    forall i | 0 < i < |t| && Parent(i) != 0
      ensures Edge(less, t, i)
    {
      assert Edge(less, s, i);
    }
  }
}
