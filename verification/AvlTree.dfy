/** struct avl_tree: lookup, insertion and deletion as the loops over parent-linked nodes that they are. */
module AvlTree {
  import opened CString
  import opened AvlShape
  import opened AvlRotate
  import opened AvlRetrace
  import opened AvlFill
  import opened AvlRemove

  /** Keys strictly ascending, hence all different. */
  ghost predicate Ascending(q: seq<Node>) {
    forall i, j :: 0 <= i < j < |q| ==> Less(q[i].key, q[j].key)
  }

  /** All keys of p below `key`, all keys of q above it. */
  ghost predicate Between(p: seq<Node>, key: string, q: seq<Node>) {
    && (forall i :: 0 <= i < |p| ==> Less(p[i].key, key))
    && (forall i :: 0 <= i < |q| ==> Less(key, q[i].key))
  }

  ghost predicate HasKey(q: seq<Node>, key: string) {
    exists i :: 0 <= i < |q| && q[i].key == key
  }

  lemma BetweenMisses(p: seq<Node>, key: string, q: seq<Node>)
    requires Between(p, key, q)
    ensures !HasKey(p + q, key)
  {
    LessTotal(key, key);
  }

  /** One step of the descent: where the key lies relative to the node in focus. */
  lemma Descend(c: Ctx, s: Shape, key: string)
    requires s.Bin? && Ascending(Before(c) + Inorder(s) + After(c)) && Between(Before(c), key, After(c))
    ensures Less(key, s.n.key) ==> Between(Before(In(c, Left, s.n, s.r)), key, After(In(c, Left, s.n, s.r)))
    ensures Less(s.n.key, key) ==> Between(Before(In(c, Right, s.n, s.l)), key, After(In(c, Right, s.n, s.l)))
  {
    var p, x, y, q := Before(c), Inorder(s.l), Inorder(s.r), After(c);
    var w := p + (x + [s.n] + y) + q;
    if Less(key, s.n.key) {
      forall i | 0 <= i < |y| ensures Less(key, y[i].key) {
        assert w[|p| + |x|] == s.n && w[|p| + |x| + 1 + i] == y[i];
        LessTransitive(key, s.n.key, y[i].key);
      }
    }
    if Less(s.n.key, key) {
      forall i | 0 <= i < |x| ensures Less(x[i].key, key) {
        assert w[|p| + |x|] == s.n && w[|p| + i] == x[i];
        LessTransitive(x[i].key, s.n.key, key);
      }
    }
  }

  lemma {:induction false} DescendHeight(c: Ctx, s: Shape)
    ensures Depth(c) + Height(s) <= Height(Plug(c, s))
    decreases c
  {
    if c.In? { DescendHeight(c.up, Join(c.side, s, c.n, c.sib)); }
  }

  /** The search for `key` in the tree `whole` has narrowed down to the subtree `s`. */
  ghost predicate Cursor(m: Mem, whole: Shape, c: Ctx, s: Shape, key: string) {
    && Plug(c, s) == whole && CtxNodes(c) + Nodes(s) == Nodes(whole)
    && Zip(m, c, s) && Stored(m, s) && CtxStored(m, c, Height(s))
    && Between(Before(c), key, After(c))
  }

  /** What one comparison of the insert loop establishes. */
  lemma DescentStep(m: Mem, whole: Shape, c: Ctx, s: Shape, key: string)
    requires Cursor(m, whole, c, s, key) && s.Bin? && Ascending(Inorder(whole))
    ensures s.n in m && m[s.n].left == Root(s.l) && m[s.n].right == Root(s.r)
    ensures StrCmp(s.n.key, key) < 0 ==> Cursor(m, whole, In(c, Right, s.n, s.l), s.r, key)
    ensures StrCmp(s.n.key, key) > 0 ==> Cursor(m, whole, In(c, Left, s.n, s.r), s.l, key)
    ensures StrCmp(s.n.key, key) == 0 ==> HasKey(Inorder(whole), key)
  {
    var l, r := In(c, Left, s.n, s.r), In(c, Right, s.n, s.l);
    PlugInorder(c, s);
    PlugNodes(l, s.l); PlugNodes(r, s.r);
    Descend(c, s, key);
    Down(m, c, s);
    StrCmpAntisymmetric(s.n.key, key);
    StrCmpEqual(s.n.key, key);
    assert s.n in Inorder(s);
    assert s.n in Inorder(whole);
  }

  /** A key whose place in the order is an empty hole does not occur. */
  lemma Vacant(c: Ctx, key: string)
    requires Between(Before(c), key, After(c))
    ensures !HasKey(Inorder(Plug(c, Nil)), key)
  {
    BetweenMisses(Before(c), key, After(c));
    PlugInorder(c, Nil);
    assert Before(c) + [] + After(c) == Before(c) + After(c);
  }

  lemma AscendingInsert(p: seq<Node>, n: Node, q: seq<Node>)
    requires Ascending(p + q) && Between(p, n.key, q)
    ensures Ascending(p + [n] + q)
  {
    var w, v := p + [n] + q, p + q;
    forall i, j | 0 <= i < j < |w| ensures Less(w[i].key, w[j].key) {
      var a, b := if i <= |p| then i else i - 1, if j <= |p| then j else j - 1;
      if i == |p| {
        assert w[j] == q[j - |p| - 1];
      } else if j != |p| {
        assert w[i] == v[a] && w[j] == v[b];
      }
    }
  }

  /** q is p with `n` put in somewhere. */
  ghost predicate Inserted(p: seq<Node>, n: Node, q: seq<Node>) {
    exists i :: 0 <= i <= |p| && q == p[..i] + [n] + p[i..]
  }

  /** t is s with `n` as a new leaf, and no node moved. */
  ghost predicate LeafAdded(s: Shape, n: Node, t: Shape) {
    if s.Nil? then t == Bin(Nil, n, Nil)
    else t.Bin? && t.n == s.n && ((t.r == s.r && LeafAdded(s.l, n, t.l)) || (t.l == s.l && LeafAdded(s.r, n, t.r)))
  }

  lemma {:induction false} LeafPlugged(c: Ctx, s: Shape, n: Node, t: Shape)
    requires LeafAdded(s, n, t)
    ensures LeafAdded(Plug(c, s), n, Plug(c, t))
    decreases c
  {
    if c.In? {
      LeafPlugged(c.up, Join(c.side, s, c.n, c.sib), n, Join(c.side, t, c.n, c.sib));
    }
  }

  lemma SplitInserted(a: seq<Node>, n: Node, b: seq<Node>)
    ensures Inserted(a + b, n, a + [n] + b)
  {
    var w := a + b;
    assert w[..|a|] == a && w[|a|..] == b;
  }

  /** Filling the hole where the key belongs inserts the node into the order. */
  lemma Filled(c: Ctx, n: Node, whole: Shape)
    requires whole == Plug(c, Nil) && Ascending(Inorder(whole)) && Between(Before(c), n.key, After(c))
    ensures Inserted(Inorder(whole), n, Before(c) + [n] + After(c)) && Ascending(Before(c) + [n] + After(c))
    ensures Nodes(whole) == CtxNodes(c)
  {
    PlugInorder(c, Nil);
    PlugNodes(c, Nil);
    assert Inorder(whole) == Before(c) + After(c);
    SplitInserted(Before(c), n, After(c));
    AscendingInsert(Before(c), n, After(c));
  }

  /** q is p without its only occurrence of `n`. */
  ghost predicate Removed(p: seq<Node>, n: Node, q: seq<Node>) {
    exists i :: 0 <= i < |p| && p[i] == n && q == p[..i] + p[i + 1..]
  }

  lemma SplitRemoved(a: seq<Node>, n: Node, b: seq<Node>)
    ensures Removed(a + [n] + b, n, a + b)
    ensures Ascending(a + [n] + b) ==> Ascending(a + b)
  {
    var w, v := a + [n] + b, a + b;
    assert w[|a|] == n && w[..|a|] == a && w[|a| + 1..] == b;
    if Ascending(w) {
      forall i, j | 0 <= i < j < |v| ensures Less(v[i].key, v[j].key) {
        var x, y := if i < |a| then i else i + 1, if j < |a| then j else j + 1;
        assert v[i] == w[x] && v[j] == w[y];
      }
    }
  }

  /** A node of the tree in focus, and what taking it out of the order will mean. */
  lemma Picked(m: Mem, whole: Shape, c: Ctx, f: Shape)
    requires f.Bin? && Plug(c, f) == whole && Sep(whole) && Linked(m, whole, null) && Stored(m, whole)
      && Ascending(Inorder(whole))
    ensures Focused(m, c, f.l, f.n, f.r)
    ensures CtxNodes(c) + Nodes(f.l) + {f.n} + Nodes(f.r) == Nodes(whole)
    ensures f.n !in CtxNodes(c) + Nodes(f.l) + Nodes(f.r)
    ensures var q := Before(c) + Inorder(f.l) + Inorder(f.r) + After(c);
      Removed(Inorder(whole), f.n, q) && Ascending(q)
  {
    PlugLinked(m, c, f);
    PlugStored(m, c, f);
    PlugNodes(c, f);
    NodesOf(f.l, f.n, f.r);
    PickedOrder(whole, c, f);
  }

  lemma PickedOrder(whole: Shape, c: Ctx, f: Shape)
    requires f.Bin? && Plug(c, f) == whole && Ascending(Inorder(whole))
    ensures var q := Before(c) + Inorder(f.l) + Inorder(f.r) + After(c);
      Removed(Inorder(whole), f.n, q) && Ascending(q)
  {
    PlugInorder(c, f);
    Around(Before(c), Inorder(f.l), f.n, Inorder(f.r), After(c));
    SplitRemoved(Before(c) + Inorder(f.l), f.n, Inorder(f.r) + After(c));
  }

  lemma Around(a: seq<Node>, l: seq<Node>, n: Node, r: seq<Node>, b: seq<Node>)
    ensures a + (l + [n] + r) + b == (a + l) + [n] + (r + b)
    ensures a + l + r + b == (a + l) + (r + b)
  {
  }

  lemma LeafInorder(c: Ctx, n: Node)
    ensures Inorder(Plug(c, Bin(Nil, n, Nil))) == Before(c) + [n] + After(c)
  {
    PlugInorder(c, Bin(Nil, n, Nil));
    assert Inorder(Bin(Nil, n, Nil)) == [n];
  }

  lemma CursorStart(m: Mem, m': Mem, s: Shape, key: string)
    requires Sep(s) && Linked(m, s, null) && Stored(m, s) && (forall n :: n in m ==> n in m' && m'[n] == m[n])
    ensures Cursor(m', s, Top, s, key)
  {
    KeepLinked(m, m', s, null);
    KeepStored(m, m', s);
  }

  /** All that validity says about the nodes of a shape. */
  ghost predicate Closed(s: Shape)
    reads Nodes(s)
  {
    Sep(s) && Linked(View(Nodes(s)), s, null) && Stored(View(Nodes(s)), s)
  }

  /** The zipper of a finished operation closes to a proper tree. */
  lemma Close(repr: set<Node>, c: Ctx, s: Shape)
    requires Zip(View(repr), c, s) && Stored(View(repr), s) && CtxStored(View(repr), c, Height(s))
    requires Nodes(Plug(c, s)) <= repr
    ensures Closed(Plug(c, s))
  {
    var whole := Plug(c, s);
    PlugLinked(View(repr), c, s);
    PlugStored(View(repr), c, s);
    KeepLinked(View(repr), View(Nodes(whole)), whole, null);
    KeepStored(View(repr), View(Nodes(whole)), whole);
  }

  class Tree {
    var root: Node?
    ghost var shape: Shape
    ghost var repr: set<Node>

    ghost predicate Valid()
      reads this, repr
    {
      repr == Nodes(shape) && root == Root(shape) && Closed(shape) && Ascending(Inorder(shape))
    }

    constructor ()
      ensures Valid() && shape == Nil
    {
      root, shape, repr := null, Nil, {};
    }

    method FindNameNode(key: string) returns (r: Node?, ghost steps: nat)
      requires Valid()
      ensures r != null ==> r in Inorder(shape) && r.key == key
      ensures r == null ==> !HasKey(Inorder(shape), key)
      ensures steps <= Height(shape)
    {
      ghost var m, c, s := View(Nodes(shape)), Top, shape;
      r, steps := root, 0;
      while r != null
        invariant Plug(c, s) == shape && Zip(m, c, s) && r == Root(s)
        invariant Between(Before(c), key, After(c))
        invariant steps == Depth(c)
        decreases s
      {
        PlugInorder(c, s);
        DescendHeight(c, s);
        Descend(c, s, key);
        PlugNodes(c, s);
        var cmp := StrCmp(key, r.key);
        steps := steps + 1;
        if cmp == 0 {
          StrCmpEqual(key, r.key);
          assert r in Inorder(s) && Height(s) >= 1;
          return;
        } else if cmp < 0 {
          r := r.left;
          c, s := In(c, Left, s.n, s.r), s.l;
        } else {
          StrCmpAntisymmetric(key, r.key);
          r := r.right;
          c, s := In(c, Right, s.n, s.l), s.r;
        }
        PlugLinked(m, c, s);
      }
      PlugInorder(c, s);
      DescendHeight(c, s);
      BetweenMisses(Before(c), key, After(c));
      assert Inorder(shape) == Before(c) + After(c);
    }

    /** Hangs `n` as a child of `p` on the given side; the result tells whether that evened `p` out. */
    method Attach(p: Node, n: Node, side: Side, ghost repr: set<Node>, ghost c: Ctx) returns (flag: bool)
      requires p in repr && n in repr && n.Detached() && n !in CtxNodes(c)
      requires c.In? && c.n == p && c.side == side
      requires Zip(View(repr), c, Nil) && CtxStored(View(repr), c, 0)
      modifies p`left, p`right, p`balance, n`parent
      ensures Zip(View(repr), c, Bin(Nil, n, Nil)) && Stored(View(repr), Bin(Nil, n, Nil))
      ensures CtxStored(View(repr), c, if flag then 1 else 0)
    {
      ghost var m := View(repr);
      flag := false;
      if side.Right? {
        p.right := n;
        n.parent := p;
        if p.balance + 1 == 0 {
          flag := true;
          p.balance := p.balance + 1;
        }
      } else {
        p.left := n;
        n.parent := p;
        if p.balance - 1 == 0 {
          flag := true;
          p.balance := p.balance - 1;
        }
      }
      Hang(m, View(repr), c, n);
      if flag {
        HangEvens(m, View(repr), c);
      } else {
        KeepCtxStored(m, View(repr), c, 0);
      }
    }

    /** The descent of add_node_avltree: hangs `n` below the last node met, or finds its key taken. */
    method Place(n: Node, ghost all: set<Node>) returns (taken: bool, flag: bool, ghost c: Ctx)
      requires Valid() && root != null && n !in repr && n.Detached() && all == repr + {n}
      modifies all`parent, all`left, all`right, all`balance
      ensures taken <==> HasKey(Inorder(shape), n.key)
      ensures taken ==> unchanged(all) && Valid()
      ensures !taken ==>
        && Plug(c, Nil) == shape && Between(Before(c), n.key, After(c))
        && Zip(View(all), c, Bin(Nil, n, Nil)) && Stored(View(all), Bin(Nil, n, Nil))
        && CtxStored(View(all), c, if flag then 1 else 0)
    {
      var p: Node, side := root, Left;
      ghost var m, s := View(all), shape;
      flag, taken, c := false, false, Top;
      CursorStart(View(repr), m, shape, n.key);
      while true
        invariant Cursor(m, shape, c, s, n.key) && p == Root(s)
        modifies {}
        decreases s
      {
        DescentStep(m, shape, c, s, n.key);
        var cmp := StrCmp(p.key, n.key);
        if cmp == 0 {
          taken := true;
          return;
        }
        side := if cmp < 0 then Right else Left;
        c, s := In(c, side, s.n, if cmp < 0 then s.l else s.r), if cmp < 0 then s.r else s.l;
        var next := if cmp < 0 then p.right else p.left;
        if next == null {
          break;
        }
        p := next;
      }
      Vacant(c, n.key);
      flag := Attach(p, n, side, all, c);
    }

    /** The parent of a subtree that grew learns about it. */
    method BumpParent(p: Node, ghost repr: set<Node>, ghost c: Ctx, ghost s: Shape)
      requires Grown(View(repr), c, s) && s.n == p && c.In? && CtxNodes(c) + Nodes(s) <= repr && p.parent != null
      modifies p.parent`balance
      ensures var t := Join(c.side, s, c.n, c.sib);
        && p.parent == t.n && Plug(c.up, t) == Plug(c, s) && CtxNodes(c.up) + Nodes(t) == CtxNodes(c) + Nodes(s)
        && Zip(View(repr), c.up, t) && Bumped(View(repr), c.up, t)
    {
      ghost var m := View(repr);
      WhichSide(m, c, s);
      if p.parent.left == p {
        p.parent.balance := p.parent.balance - 1;
      } else {
        p.parent.balance := p.parent.balance + 1;
      }
      GrowStep(m, View(repr), c, s);
    }

    /** The subtree in focus has grown by one level, or has been settled. */
    ghost predicate Retracing(m: Mem, run: bool, c: Ctx, s: Shape) {
      if run then Grown(m, c, s) else Zip(m, c, s) && Stored(m, s) && CtxStored(m, c, Height(s))
    }

    /** The parent of the subtree learns that it grew: it is even now, or grew as well, or is rotated. */
    method RetraceUp(p0: Node, ghost repr: set<Node>, ghost c0: Ctx, ghost s0: Shape)
      returns (p: Node, run: bool, ghost c: Ctx, ghost s: Shape, ghost rotated: bool)
      requires Grown(View(repr), c0, s0) && s0.n == p0 && c0.In? && CtxNodes(c0) + Nodes(s0) <= repr
        && p0.parent != null
      modifies repr`parent, repr`left, repr`right, repr`balance
      ensures Retracing(View(repr), run, c, s) && p == Root(s) && c == c0.up
      ensures Inorder(Plug(c, s)) == Inorder(Plug(c0, s0)) && CtxNodes(c) + Nodes(s) == CtxNodes(c0) + Nodes(s0)
      ensures if rotated then !run else Plug(c, s) == Plug(c0, s0)
    {
      BumpParent(p0, repr, c0, s0);
      p, run, rotated := p0.parent, true, false;
      c, s := c0.up, Join(c0.side, s0, c0.n, c0.sib);
      if p.balance == 0 {
        run := false;
      } else if p.balance > 1 || p.balance < -1 {
        ghost var m, t := View(repr), s;
        p, s := Rebalance(p, repr, c, t);
        AfterRotation(m, View(repr), c, t, s, Height(s));
        run, rotated := false, true;
      }
    }

    /** The retracing loop of add_node_avltree, from a leaf that made its parent's side taller. It rebalances at most
      * once; if it does not, no link changes. */
    method Retrace(n: Node, ghost repr: set<Node>, ghost c0: Ctx, ghost s0: Shape)
      returns (p: Node, ghost c: Ctx, ghost s: Shape, ghost rotations: nat)
      requires Grown(View(repr), c0, s0) && s0.n == n && CtxNodes(c0) + Nodes(s0) <= repr
      modifies repr`parent, repr`left, repr`right, repr`balance
      ensures Zip(View(repr), c, s) && Stored(View(repr), s) && CtxStored(View(repr), c, Height(s)) && p == Root(s)
      ensures Inorder(Plug(c, s)) == Inorder(Plug(c0, s0)) && CtxNodes(c) + Nodes(s) == CtxNodes(c0) + Nodes(s0)
      ensures rotations <= 1 && (rotations == 0 ==> Plug(c, s) == Plug(c0, s0))
    {
      p, c, s, rotations := n, c0, s0, 0;
      var run := true;
      while run
        invariant p == Root(s) && Inorder(Plug(c, s)) == Inorder(Plug(c0, s0))
        invariant CtxNodes(c) + Nodes(s) == CtxNodes(c0) + Nodes(s0) && Retracing(View(repr), run, c, s)
        invariant rotations <= (if run then 0 else 1) && (rotations == 0 ==> Plug(c, s) == Plug(c0, s0))
        decreases run, Depth(c)
      {
        WhichSide(View(repr), c, s);
        hide Inorder, Plug, Nodes, CtxNodes, Stored, CtxStored;
        if p.parent == null {
          run := false;
        } else {
          ghost var rotated;
          p, run, c, s, rotated := RetraceUp(p, repr, c, s);
          rotations := if rotated then 1 else 0;
        }
      }
    }

    /** Both loops end by walking up to where the parent is NULL. */
    method Climb(p0: Node, ghost repr: set<Node>, ghost c0: Ctx, ghost s0: Shape) returns (p: Node)
      requires Zip(View(repr), c0, s0) && p0 == Root(s0) && CtxNodes(c0) + Nodes(s0) <= repr
      ensures p == Root(Plug(c0, s0))
    {
      p := p0;
      ghost var c, s := c0, s0;
      while p.parent != null
        invariant p == Root(s) && Zip(View(repr), c, s) && Plug(c, s) == Plug(c0, s0)
        invariant CtxNodes(c) + Nodes(s) == CtxNodes(c0) + Nodes(s0)
        decreases Depth(c)
      {
        WhichSide(View(repr), c, s);
        Up(View(repr), c, s);
        p := p.parent;
        c, s := c.up, Join(c.side, s, c.n, c.sib);
      }
      WhichSide(View(repr), c, s);
    }

    /** The new root is recorded in the tree. */
    method Install(p: Node?, ghost whole: Shape)
      requires p == Root(whole) && Closed(whole) && Ascending(Inorder(whole))
      modifies this
      ensures Valid() && shape == whole && repr == Nodes(whole)
    {
      root, shape, repr := p, whole, Nodes(whole);
    }

    /** add_node_avltree after the descent: retrace if needed, then find the root. */
    method Settle(n: Node, flag: bool, ghost all: set<Node>, ghost c0: Ctx) returns (ghost rotations: nat)
      requires Zip(View(all), c0, Bin(Nil, n, Nil)) && Stored(View(all), Bin(Nil, n, Nil))
      requires CtxStored(View(all), c0, if flag then 1 else 0) && all == CtxNodes(c0) + {n}
      requires Ascending(Before(c0) + [n] + After(c0))
      modifies this, all`parent, all`left, all`right, all`balance
      ensures Valid() && repr == all && Inorder(shape) == Before(c0) + [n] + After(c0)
      ensures rotations <= 1 && (rotations == 0 ==> shape == Plug(c0, Bin(Nil, n, Nil)))
    {
      ghost var c, s := c0, Bin(Nil, n, Nil);
      var p := n;
      LeafInorder(c0, n);
      rotations := 0;
      if !flag {
        p, c, s, rotations := Retrace(n, all, c, s);
      }
      PlugNodes(c, s);
      Close(all, c, s);
      p := Climb(p, all, c, s);
      Install(p, Plug(c, s));
    }

    /** add_node_avltree. One rotation is enough for any insertion, and without it the tree is the old one and a
      * leaf. */
    method AddNode(n: Node) returns (result: int, ghost rotations: nat)
      requires Valid() && n !in repr && n.Detached()
      modifies this
      modifies (repr + {n})`parent, (repr + {n})`left, (repr + {n})`right, (repr + {n})`balance
      ensures Valid() && repr == old(repr) + (if result == 0 then {n} else {})
      ensures result == if old(HasKey(Inorder(shape), n.key)) then -1 else 0
      ensures result == -1 ==> unchanged(this) && unchanged(n) && unchanged(old(repr))
      ensures result == 0 ==> Inserted(old(Inorder(shape)), n, Inorder(shape))
      ensures rotations <= 1 && (result == 0 && rotations == 0 ==> LeafAdded(old(shape), n, shape))
    {
      rotations := 0;
      if root == null {
        AddFirst(n);
        result := 0;
      } else {
        ghost var all := repr + {n};
        ghost var c;
        var taken, flag;
        taken, flag, c := Place(n, all);
        if taken {
          result := -1;
        } else {
          Filled(c, n, shape);
          LeafPlugged(c, Nil, n, Bin(Nil, n, Nil));
          rotations := Settle(n, flag, all, c);
          result := 0;
        }
      }
    }

    method AddFirst(n: Node)
      requires Valid() && n.Detached() && root == null
      modifies this
      ensures Valid() && repr == {n} && old(Inorder(shape)) == [] && Inserted([], n, Inorder(shape))
      ensures LeafAdded(old(shape), n, shape)
    {
      root, shape, repr := n, Bin(Nil, n, Nil), {n};
      assert Inorder(shape) == [][..0] + [n] + [][0..];
    }

    /** del_node_complex_avltree; -2 is the answer to a NULL node. */
    method DelNode(n: Node?, callback: bool) returns (result: int, calls: Freed)
      requires Valid() && (n != null ==> n in repr)
      modifies this, repr`parent, repr`left, repr`right, repr`balance, Just(n)`data
      ensures Valid() && (n == null ==> result == -2 && calls == [] && unchanged(this) && unchanged(old(repr)))
      ensures n != null ==> result == 0 && Removed(old(Inorder(shape)), n, Inorder(shape)) && repr == old(repr) - {n}
      ensures n != null ==> calls == if callback && old(n.data).Data? then [(n.key, old(n.data))] else []
    {
      if n == null {
        return -2, [];
      }
      ghost var all, c, f := repr, Top, shape;
      c, f := Focus(Top, shape, n);
      Picked(View(all), shape, c, f);
      var p;
      ghost var whole;
      p, calls, whole := Remove(n, callback, all, c, f.l, f.r);
      Close(all, Top, whole);
      Install(p, whole);
      return 0, calls;
    }
  }
}
