/** The tree as the index it serves as: the map it implements, the cost of a lookup, and its end. */
module AvlIndex {
  import opened CString
  import opened AvlShape
  import opened AvlFill
  import opened AvlTree
  import AvlDestroy

  // ---- the map ----

  lemma AscendingKeys(q: seq<Node>, i: nat, j: nat)
    requires Ascending(q) && i < |q| && j < |q| && q[i].key == q[j].key
    ensures i == j
  {
    LessTotal(q[i].key, q[j].key);
  }

  lemma KeysDiffer(q: seq<Node>)
    requires Ascending(q)
    ensures forall a, b :: a in q && b in q && a.key == b.key ==> a == b
  {
    forall a, b | a in q && b in q && a.key == b.key
      ensures a == b
    {
      var i, j :| 0 <= i < |q| && q[i] == a && 0 <= j < |q| && q[j] == b;
      AscendingKeys(q, i, j);
    }
  }

  /** The map from keys to nodes that nodes in order stand for. */
  ghost function Index(q: seq<Node>): map<string, Node>
    requires Ascending(q)
  {
    KeysDiffer(q);
    map n | n in q :: n.key := n
  }

  /** Lookup by name is lookup in the map. */
  lemma LookupAgrees(q: seq<Node>, key: string, r: Node?)
    requires Ascending(q) && (r != null ==> r in q && r.key == key) && (r == null ==> !HasKey(q, key))
    ensures key in Index(q) <==> r != null
    ensures r != null ==> Index(q)[key] == r
  {
    KeysDiffer(q);
    if key in Index(q) {
      var n :| n in q && n.key == key;
      var i :| 0 <= i < |q| && q[i] == n;
      assert HasKey(q, key);
    }
  }

  lemma InsertedElements(p: seq<Node>, n: Node, q: seq<Node>)
    requires Ascending(q) && Inserted(p, n, q)
    ensures forall x :: x in q <==> x in p || x == n
    ensures forall x :: x in p ==> x.key != n.key
  {
    var i :| 0 <= i <= |p| && q == p[..i] + [n] + p[i..];
    assert p == p[..i] + p[i..];
    forall x | x in p
      ensures x.key != n.key
    {
      var j :| 0 <= j < |p| && p[j] == x;
      var k := if j < i then j else j + 1;
      assert q[k] == x && q[i] == n;
      if x.key == n.key {
        AscendingKeys(q, i, k);
      }
    }
  }

  lemma RemovedInserted(p: seq<Node>, n: Node, q: seq<Node>)
    requires Removed(p, n, q)
    ensures Inserted(q, n, p)
  {
    var i :| 0 <= i < |p| && p[i] == n && q == p[..i] + p[i + 1..];
    assert q[..i] == p[..i] && q[i..] == p[i + 1..];
    assert p == q[..i] + [n] + q[i..];
  }

  /** Inserting a node adds its key and changes no other; deleting one takes away its key and no other. */
  lemma InsertedIndex(p: seq<Node>, n: Node, q: seq<Node>)
    requires Ascending(p) && Ascending(q) && Inserted(p, n, q)
    ensures n.key !in Index(p) && Index(q) == Index(p)[n.key := n]
  {
    InsertedElements(p, n, q);
    KeysDiffer(q);
    hide Ascending, Inserted;
  }

  lemma RemovedIndex(p: seq<Node>, n: Node, q: seq<Node>)
    requires Ascending(p) && Ascending(q) && Removed(p, n, q)
    ensures n.key in Index(p) && Index(q) == Index(p) - {n.key}
  {
    RemovedInserted(p, n, q);
    InsertedIndex(q, n, p);
    assert Index(q)[n.key := n] - {n.key} == Index(q);
  }

  /** Walking the tree in order lists the keys of the map in the one ascending order there is, that of their bytes. */
  lemma InorderSorted(q: seq<Node>)
    requires Ascending(q)
    ensures seq(|q|, i requires 0 <= i < |q| => q[i].key) == Sorted(Index(q).Keys)
    ensures forall i, j :: 0 <= i < j < |q| ==> Precedes(q[i].key, q[j].key)
  {
    forall i, j | 0 <= i < j < |q|
      ensures Precedes(q[i].key, q[j].key)
    {
      LessMeans(q[i].key, q[j].key);
    }
    var keys := seq(|q|, i requires 0 <= i < |q| => q[i].key);
    AscendingSorted(keys);
    assert (set k | k in keys) == Index(q).Keys by {
      forall k | k in Index(q)
        ensures k in keys
      {
        var n :| n in q && n.key == k;
        var i :| 0 <= i < |q| && q[i] == n;
        assert keys[i] == k;
      }
      forall k | k in keys
        ensures k in Index(q)
      {
        var i :| 0 <= i < |keys| && keys[i] == k;
        assert q[i] in q;
      }
    }
  }

  // ---- the height ----

  function Fib(n: nat): nat {
    if n < 2 then n else Fib(n - 1) + Fib(n - 2)
  }

  function Pow2(n: nat): nat {
    if n == 0 then 1 else 2 * Pow2(n - 1)
  }

  lemma {:induction false} FibGrows(m: nat, n: nat)
    requires m <= n
    ensures Fib(m + 1) <= Fib(n + 1)
    decreases n - m
  {
    if m < n {
      FibGrows(m, n - 1);
    }
  }

  lemma {:induction false} FibDoubles(n: nat)
    ensures Pow2(n / 2) <= Fib(n + 2)
  {
    if n >= 2 {
      FibDoubles(n - 2);
      FibGrows(n - 1, n);
      assert Fib(n + 2) == Fib(n + 1) + Fib(n) && Fib(n + 1) >= Fib(n);
      assert (n - 2) / 2 + 1 == n / 2;
    }
  }

  /** A balanced tree of height h has at least Fib(h + 2) - 1 nodes. */
  lemma {:induction false} BalancedSize(m: Mem, s: Shape)
    requires Stored(m, s)
    ensures |Inorder(s)| + 1 >= Fib(Height(s) + 2)
  {
    if s.Bin? {
      BalancedSize(m, s.l);
      BalancedSize(m, s.r);
      var h, l, r := Height(s), Height(s.l), Height(s.r);
      assert h >= 1 && (l == h - 1 || r == h - 1) && l >= h - 2 && r >= h - 2;
      FibGrows(h, h);
      if l >= 0 && r >= 0 {
        FibSides(h, l, r);
      }
    }
  }

  lemma FibSides(h: nat, l: nat, r: nat)
    requires h >= 1 && h - 2 <= l < h && h - 2 <= r < h && (l == h - 1 || r == h - 1)
    ensures Fib(l + 2) + Fib(r + 2) >= Fib(h + 2)
  {
    if l == h - 1 && r == h - 1 {
      FibGrows(h - 1, h);
    }
  }

  /** So the steps of a lookup are at most twice the binary logarithm of the number of nodes, or so. */
  lemma LookupLogarithmic(t: Tree, steps: nat)
    requires t.Valid() && steps <= Height(t.shape)
    ensures Pow2(steps / 2) <= |Inorder(t.shape)| + 1
  {
    BalancedSize(View(Nodes(t.shape)), t.shape);
    FibDoubles(Height(t.shape));
    PowGrows(steps / 2, Height(t.shape) / 2);
  }

  lemma {:induction false} PowGrows(m: nat, n: nat)
    requires m <= n
    ensures Pow2(m) <= Pow2(n)
    decreases n - m
  {
    if m < n {
      PowGrows(m, n - 1);
    }
  }

  /** check_balances_avltree: the depth it computes from the links is the height. */
  method CheckBalances(n: Node?, ghost s: Shape, ghost m: Mem, ghost p: Node?) returns (depth: int)
    requires n == Root(s) && Linked(m, s, p) && m == View(m.Keys)
    ensures depth == Height(s)
    decreases s
  {
    if n == null {
      return 0;
    }
    var l := CheckBalances(n.left, s.l, m, n);
    var r := CheckBalances(n.right, s.r, m, n);
    depth := (if r > l then r else l) + 1;
  }

  // ---- the end of the tree ----

  /** Every subtree of the tree is freed in one stretch: what is on the left first, and its root last. */
  lemma {:induction false} SubtreeFirst(c: Ctx, f: Shape) returns (before: seq<Node>, after: seq<Node>)
    ensures AvlDestroy.Postorder(Plug(c, f)) == before + AvlDestroy.Postorder(f) + after
    ensures f.Bin? ==> var q := AvlDestroy.Postorder(f); AvlDestroy.Postorder(f.l) < q && q[|q| - 1] == f.n
    decreases c
  {
    var x := AvlDestroy.Postorder(f);
    if c.Top? {
      before, after := [], [];
      assert [] + x + [] == x;
    } else {
      var y := AvlDestroy.Postorder(c.sib);
      var b, a := SubtreeFirst(c.up, Join(c.side, f, c.n, c.sib));
      before := if c.side.Left? then b else b + y;
      after := if c.side.Left? then y + [c.n] + a else [c.n] + a;
      Within(b, x, y, [c.n], a);
    }
  }

  lemma Within(b: seq<Node>, x: seq<Node>, y: seq<Node>, n: seq<Node>, a: seq<Node>)
    ensures b + (x + y + n) + a == b + x + (y + n + a) && b + (y + x + n) + a == b + y + x + (n + a)
  {
    assert b + (x + y + n) + a == b + (x + y + n + a) == b + (x + (y + n + a));
    assert b + (y + x + n) + a == b + (y + x + n + a) == b + (y + (x + (n + a)));
  }

  /** Every node of the tree comes exactly once. */
  lemma {:induction false} PostorderOnce(s: Shape)
    requires Sep(s)
    ensures NoDup(AvlDestroy.Postorder(s)) && forall n :: n in AvlDestroy.Postorder(s) <==> n in Nodes(s)
  {
    if s.Bin? {
      PostorderOnce(s.l);
      PostorderOnce(s.r);
      var x, y := AvlDestroy.Postorder(s.l), AvlDestroy.Postorder(s.r);
      Apart(Nodes(s.l), Nodes(s.r), x, y);
      NoDupSplit(x, s.n, y);
      assert multiset(x + y + [s.n]) == multiset(x + [s.n] + y);
      assert forall n :: n in x + y + [s.n] <==> n in x + [s.n] + y;
    }
  }

  /** destroy_complex_avltree: frees every node once, children first, with one call for each payload. */
  method Destroy(t: Tree, callback: bool) returns (calls: Freed, ghost freed: seq<Node>)
    requires t.Valid()
    modifies t, t.repr`parent, t.repr`left, t.repr`right, t.repr`data
    ensures t.Valid() && t.shape == Nil
    ensures NoDup(freed) && (forall n :: n in freed <==> n in old(t.repr))
      && freed == AvlDestroy.Postorder(old(t.shape))
    ensures calls == AvlDestroy.CallsOf(freed, old(AvlDestroy.DataView(t.repr)), callback)
  {
    PostorderOnce(t.shape);
    calls, freed := AvlDestroy.DestroyNodes(t.root, callback, t.repr, t.shape);
    t.root, t.shape, t.repr := null, Nil, {};
  }
}
