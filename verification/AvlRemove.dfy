/** del_node_complex_avltree: pick the case, fill the gap, then rebalance upwards. */
module AvlRemove {
  import opened AvlShape
  import opened AvlRotation
  import opened AvlRotate
  import opened AvlRetrace
  import opened AvlUnlink
  import opened AvlFill
  import opened AvlDelete

  /** The node to delete in focus. */
  ghost predicate Focused(m: Mem, c: Ctx, l: Shape, n: Node, r: Shape) {
    var f := Bin(l, n, r);
    Zip(m, c, f) && Stored(m, f) && CtxStored(m, c, Height(f))
  }

  /** The gap is filled; `run` says whether the loop still has to account for the lost height. */
  ghost predicate GapFilled(m: Mem, p: Node?, run: bool, flag: bool, g: Ctx, t: Shape, h: int) {
    && Zip(m, g, t) && p == Root(t)
    && if run then Shrunk(m, g, t, h, flag) else g.Top? && Stored(m, t)
  }

  lemma Order1(c: Ctx, l: Shape)
    ensures Inorder(Plug(c, l)) == Before(c) + Inorder(l) + Inorder(Nil) + After(c)
    ensures CtxNodes(c) + Nodes(l) == CtxNodes(c) + Nodes(l) + Nodes(Nil)
  {
    PlugInorder(c, l);
    assert Before(c) + Inorder(l) + [] == Before(c) + Inorder(l);
  }

  lemma Order2(c: Ctx, l: Shape, s: Node, r: Shape)
    requires r.Bin? && r.n == s && r.l.Nil?
    ensures Inorder(Plug(c, Bin(l, s, r.r))) == Before(c) + Inorder(l) + Inorder(r) + After(c)
  {
    PlugInorder(c, Bin(l, s, r.r));
    LeafFirst(s, r.r);
    assert r == Bin(Nil, s, r.r);
    OrderAround(Before(c), Inorder(l), s, Inorder(r.r), After(c));
  }

  lemma OrderAround(a: seq<Node>, l: seq<Node>, s: Node, x: seq<Node>, b: seq<Node>)
    ensures a + (l + [s] + x) + b == a + l + ([s] + x) + b
  {
    assert l + [s] + x == l + ([s] + x);
    var y := [s] + x;
    assert a + (l + y) == a + l + y;
  }

  lemma Order3(c: Ctx, l: Shape, n: Node, r: Shape, cc: Ctx, s: Node, sr: Shape)
    requires LeftPath(cc, In(c, Right, n, l)) && cc != In(c, Right, n, l)
    requires Plug(cc, Bin(Nil, s, sr)) == Plug(c, Bin(l, n, r))
    ensures Inorder(Plug(Graft(cc, In(c, Right, n, l), In(c, Right, s, l)), sr))
         == Before(c) + Inorder(l) + Inorder(r) + After(c)
  {
    var p, y := Before(c) + Inorder(l), [s] + Inorder(sr) + After(cc);
    OldOrder3(c, l, n, cc, s, sr);
    NewOrder3(c, l, n, cc, s, sr);
    PlugInorder(c, Bin(l, n, r));
    Cancel(p, n, y, Before(c), Inorder(l), Inorder(r), After(c));
  }

  lemma OldOrder3(c: Ctx, l: Shape, n: Node, cc: Ctx, s: Node, sr: Shape)
    requires LeftPath(cc, In(c, Right, n, l))
    ensures Inorder(Plug(cc, Bin(Nil, s, sr))) == Before(c) + Inorder(l) + [n] + ([s] + Inorder(sr) + After(cc))
  {
    GraftOrder(cc, In(c, Right, n, l), s);
    PlugInorder(cc, Bin(Nil, s, sr));
    LeafFirst(s, sr);
    Associate(Before(cc), [s] + Inorder(sr), After(cc));
  }

  lemma LeafFirst(s: Node, sr: Shape)
    ensures Inorder(Bin(Nil, s, sr)) == [s] + Inorder(sr)
  {
  }

  lemma Associate(a: seq<Node>, b: seq<Node>, d: seq<Node>)
    ensures (a + b) + d == a + (b + d)
  {
  }

  lemma NewOrder3(c: Ctx, l: Shape, n: Node, cc: Ctx, s: Node, sr: Shape)
    requires LeftPath(cc, In(c, Right, n, l))
    ensures Inorder(Plug(Graft(cc, In(c, Right, n, l), In(c, Right, s, l)), sr))
         == Before(c) + Inorder(l) + ([s] + Inorder(sr) + After(cc))
  {
    var base, p, x := In(c, Right, n, l), Before(c) + Inorder(l), Inorder(sr);
    GraftOrder(cc, base, s);
    PlugInorder(Graft(cc, base, base.(n := s)), sr);
    Associate(p, [s], x);
    Associate(p, [s] + x, After(cc));
  }

  lemma Cancel(p: seq<Node>, n: Node, y: seq<Node>, b: seq<Node>, l: seq<Node>, r: seq<Node>, a: seq<Node>)
    requires p == b + l && p + [n] + y == b + (l + [n] + r) + a
    ensures p + y == b + l + r + a
  {
    var w := p + [n] + y;
    assert w == p + [n] + (r + a);
    assert w[|p| + 1..] == y && w[|p| + 1..] == r + a;
  }

  method Gap1(n: Node, callback: bool, ghost all: set<Node>, ghost c: Ctx, ghost l: Shape)
    returns (p: Node?, run: bool, flag: bool, calls: Freed, ghost g: Ctx, ghost t: Shape, ghost h: int)
    requires Focused(View(all), c, l, n, Nil) && CtxNodes(c) + Nodes(l) + {n} <= all
    modifies all`parent, all`left, all`right, all`balance, n`data
    ensures calls == FreeCalls(n, old(n.data), callback) && GapFilled(View(all), p, run, flag, g, t, h)
    ensures Inorder(Plug(g, t)) == Before(c) + Inorder(l) + Inorder(Nil) + After(c)
    ensures CtxNodes(g) + Nodes(t) == CtxNodes(c) + Nodes(l) + Nodes(Nil)
  {
    p, run, flag, calls := Fill1(n, callback, all, c, l);
    g, t, h := c, l, 0;
    Order1(c, l);
    if run {
      Up(View(all), c, l);
      g, t, h := c.up, Join(c.side, l, c.n, c.sib), Over(Height(l) + 1, Height(c.sib));
    }
  }

  method Gap2(n: Node, s: Node, callback: bool, ghost all: set<Node>, ghost c: Ctx, ghost l: Shape, ghost r: Shape)
    returns (flag: bool, calls: Freed, ghost t: Shape, ghost h: int)
    requires Focused(View(all), c, l, n, r) && CtxNodes(c) + Nodes(l) + {n} + Nodes(r) <= all
    requires r.Bin? && r.n == s && r.l.Nil?
    modifies all`parent, all`left, all`right, all`balance, n`data
    ensures calls == FreeCalls(n, old(n.data), callback) && GapFilled(View(all), s, true, flag, c, t, h)
    ensures Inorder(Plug(c, t)) == Before(c) + Inorder(l) + Inorder(r) + After(c) && Nodes(t) == Nodes(l) + Nodes(r)
  {
    t := Bin(l, s, r.r);
    flag, h, calls := Fill2(n, s, callback, all, c, l, r);
    Order2(c, l, s, r);
  }

  lemma Nodes3(c: Ctx, l: Shape, n: Node, r: Shape, cc: Ctx, s: Node, sr: Shape)
    requires LeftPath(cc, In(c, Right, n, l)) && ZipSep(cc, Bin(Nil, s, sr)) && ZipSep(c, Bin(l, n, r))
    requires Plug(cc, Bin(Nil, s, sr)) == Plug(c, Bin(l, n, r))
    ensures CtxNodes(Graft(cc, In(c, Right, n, l), In(c, Right, s, l))) + Nodes(sr) == CtxNodes(c) + Nodes(l) + Nodes(r)
  {
    var base, f := In(c, Right, n, l), Bin(Nil, s, sr);
    NodesOf(Nil, s, sr);
    NodesOf(l, n, r);
    GraftNodes(cc, base, s);
    PlugNodes(cc, f);
    PlugNodes(c, Bin(l, n, r));
    Exchange(CtxNodes(cc), n, s, Nodes(sr), CtxNodes(c), Nodes(l), Nodes(r));
  }

  lemma NodesOf(l: Shape, n: Node, r: Shape)
    ensures Nodes(Bin(l, n, r)) == Nodes(l) + {n} + Nodes(r)
    ensures Sep(Bin(l, n, r)) ==> n !in Nodes(l) && n !in Nodes(r)
  {
  }

  lemma Exchange(cs: set<Node>, n: Node, s: Node, x: set<Node>, b: set<Node>, l: set<Node>, r: set<Node>)
    requires cs + ({} + {s} + x) == b + (l + {n} + r)
    requires n in cs && s !in cs && s !in x && n !in x && n !in b && n !in l && n !in r
    ensures cs - {n} + {s} + x == b + l + r
  {
  }

  /** Case 3 fills the gap: the order and the nodes are those of the old tree without `n`, and the focus moves up to the
    * parent of the node that moved. */
  lemma Gap3Filled(m0: Mem, m: Mem, c: Ctx, l: Shape, n: Node, r: Shape, cc: Ctx, s: Node, sr: Shape, flag: bool)
    requires cc.In? && Case3Start(m0, c, l, n, r, cc, s, sr) && Plug(cc, Bin(Nil, s, sr)) == Plug(c, Bin(l, n, r))
    requires var g := Graft(cc, In(c, Right, n, l), In(c, Right, s, l));
      && g == In(g.up, Left, cc.n, cc.sib) && Zip(m, g, sr)
      && Shrunk(m, g.up, Join(Left, sr, cc.n, cc.sib), Over(Height(sr) + 1, Height(cc.sib)), flag)
    ensures var g, t := Graft(cc, In(c, Right, n, l), In(c, Right, s, l)).up, Join(Left, sr, cc.n, cc.sib);
      && GapFilled(m, cc.n, true, flag, g, t, Over(Height(sr) + 1, Height(cc.sib)))
      && Inorder(Plug(g, t)) == Before(c) + Inorder(l) + Inorder(r) + After(c)
      && CtxNodes(g) + Nodes(t) == CtxNodes(c) + Nodes(l) + Nodes(r)
  {
    Order3(c, l, n, r, cc, s, sr);
    Nodes3(c, l, n, r, cc, s, sr);
    Up(m, Graft(cc, In(c, Right, n, l), In(c, Right, s, l)), sr);
    hide Graft, LeftPath, Inorder, Nodes, CtxNodes, Linked, CtxLinked, Sep, CtxSep;
  }

  method Gap3(n: Node, r0: Node, callback: bool, ghost all: set<Node>, ghost c: Ctx, ghost l: Shape, ghost r: Shape)
    returns (p: Node, flag: bool, calls: Freed, ghost g: Ctx, ghost t: Shape, ghost h: int)
    requires Focused(View(all), c, l, n, r) && CtxNodes(c) + Nodes(l) + {n} + Nodes(r) <= all
    requires r.Bin? && r.n == r0 && r.l.Bin?
    modifies all`parent, all`left, all`right, all`balance, n`data
    ensures calls == FreeCalls(n, old(n.data), callback) && GapFilled(View(all), p, true, flag, g, t, h)
    ensures Inorder(Plug(g, t)) == Before(c) + Inorder(l) + Inorder(r) + After(c)
    ensures CtxNodes(g) + Nodes(t) == CtxNodes(c) + Nodes(l) + Nodes(r)
  {
    hide *;
    ghost var m, cc, s, sr := View(all), c, n, l;
    p, cc, s, sr := FindGap3(n, r0, all, c, l, r);
    flag, calls := Fill3(n, p, callback, all, c, l, r, cc, s, sr);
    Gap3Filled(m, View(all), c, l, n, r, cc, s, sr, flag);
    g, t := Graft(cc, In(c, Right, n, l), In(c, Right, s, l)).up, Join(Left, sr, p, cc.sib);
    h := Over(Height(sr) + 1, Height(cc.sib));
  }

  /** The search for the in-order successor: left from the right child, remembering its parent. */
  method FindGap3(n: Node, r0: Node, ghost all: set<Node>, ghost c: Ctx, ghost l: Shape, ghost r: Shape)
    returns (w: Node, ghost cc: Ctx, ghost s: Node, ghost sr: Shape)
    requires Focused(View(all), c, l, n, r) && CtxNodes(c) + Nodes(l) + {n} + Nodes(r) <= all
    requires r.Bin? && r.n == r0 && r.l.Bin?
    ensures Case3Start(View(all), c, l, n, r, cc, s, sr) && cc.In? && cc.n == w && l.Bin?
    ensures Stored(View(all), Bin(Nil, s, sr)) && CtxStored(View(all), cc, Height(Bin(Nil, s, sr)))
    ensures Plug(cc, Bin(Nil, s, sr)) == Plug(c, Bin(l, n, r))
  {
    ghost var m, base, f := View(all), In(c, Right, n, l), Bin(l, n, r);
    Down(m, c, f);
    ghost var b := base;
    ghost var x := r;
    w := r0;
    cc := In(b, Left, x.n, x.r);
    x := x.l;
    Down(m, b, r);
    while true
      invariant LeftPath(cc, base) && cc != base && First(cc, base) == r.n && cc.n == w && x.Bin?
      invariant Plug(cc, x) == Plug(c, f) && Zip(m, cc, x) && Stored(m, x) && CtxStored(m, cc, Height(x))
      decreases x
    {
      WhichSide(m, cc, x);
      var t := w.left;
      Down(m, cc, x);
      if t.left == null {
        break;
      }
      w := t;
      cc, x := In(cc, Left, x.n, x.r), x.l;
    }
    s, sr := x.n, x.r;
    assert x == Bin(Nil, s, sr);
    TallRight(m, l, n, r);
  }

  /** The balance invariant is what makes the unchecked n_left of case 3 safe. */
  lemma TallRight(m: Mem, l: Shape, n: Node, r: Shape)
    requires Stored(m, Bin(l, n, r)) && r.Bin? && r.l.Bin?
    ensures l.Bin?
  {
    assert Height(r.l) >= 1 && Height(r) >= 2;
  }

  /** The three cases of del_node_complex_avltree. */
  method Gap(n: Node, callback: bool, ghost all: set<Node>, ghost c: Ctx, ghost l: Shape, ghost r: Shape)
    returns (p: Node?, run: bool, flag: bool, calls: Freed, ghost g: Ctx, ghost t: Shape, ghost h: int)
    requires Focused(View(all), c, l, n, r) && CtxNodes(c) + Nodes(l) + {n} + Nodes(r) <= all
    modifies all`parent, all`left, all`right, all`balance, n`data
    ensures calls == FreeCalls(n, old(n.data), callback) && GapFilled(View(all), p, run, flag, g, t, h)
    ensures Inorder(Plug(g, t)) == Before(c) + Inorder(l) + Inorder(r) + After(c)
    ensures CtxNodes(g) + Nodes(t) == CtxNodes(c) + Nodes(l) + Nodes(r)
  {
    run, g := true, c;
    Pointers(View(all), c, l, n, r);
    if n.right == null {
      p, run, flag, calls, g, t, h := Gap1(n, callback, all, c, l);
    } else {
      p := n.right;
      if p.left == null {
        flag, calls, t, h := Gap2(n, p, callback, all, c, l, r);
      } else {
        p, flag, calls, g, t, h := Gap3(n, p, callback, all, c, l, r);
      }
    }
  }

  lemma Pointers(m: Mem, c: Ctx, l: Shape, n: Node, r: Shape)
    requires Zip(m, c, Bin(l, n, r))
    ensures n in m && m[n].right == Root(r) && (r.Bin? ==> r.n in m && m[r.n].left == Root(r.l))
  {
    assert Linked(m, r, n);
  }

  /** All of del_node_complex_avltree once the node is in focus; the result is the new root. */
  method Remove(n: Node, callback: bool, ghost all: set<Node>, ghost c: Ctx, ghost l: Shape, ghost r: Shape)
    returns (p: Node?, calls: Freed, ghost whole: Shape)
    requires Focused(View(all), c, l, n, r) && CtxNodes(c) + Nodes(l) + {n} + Nodes(r) <= all
    modifies all`parent, all`left, all`right, all`balance, n`data
    ensures calls == FreeCalls(n, old(n.data), callback)
    ensures Zip(View(all), Top, whole) && Stored(View(all), whole) && p == Root(whole)
    ensures Inorder(whole) == Before(c) + Inorder(l) + Inorder(r) + After(c)
    ensures Nodes(whole) == CtxNodes(c) + Nodes(l) + Nodes(r)
  {
    hide Focused, Linked, CtxLinked, Sep, Stored, Height;
    var run, flag;
    ghost var g, t, h;
    p, run, flag, calls, g, t, h := Gap(n, callback, all, c, l, r);
    whole := t;
    if run {
      p, whole := Cascade(p, flag, all, g, t, h);
    }
  }
}
