/** The rebalancing loop of del_node_complex_avltree, from whatever the three cases leave behind up to the root. */
module AvlDelete {
  import opened AvlShape
  import opened AvlRotation
  import opened AvlRotate
  import opened AvlRetrace
  import opened AvlUnlink

  /** `flag` set: nothing above changes any more, the loop only looks for the root. */
  lemma StopUp(m: Mem, c: Ctx, s: Shape, h: int)
    requires c.In? && Zip(m, c, s) && Shrunk(m, c, s, h, true)
    ensures var t := Join(c.side, s, c.n, c.sib);
      && Zip(m, c.up, t) && Plug(c.up, t) == Plug(c, s) && CtxNodes(c.up) + Nodes(t) == CtxNodes(c) + Nodes(s)
      && Shrunk(m, c.up, t, Over(h, Height(c.sib)), true)
  {
    Up(m, c, s);
    StopBalance(m, c, s, h);
  }

  lemma StopBalance(m: Mem, c: Ctx, s: Shape, h: int)
    requires c.In? && Shrunk(m, c, s, h, true)
    ensures Shrunk(m, c.up, Join(c.side, s, c.n, c.sib), Over(h, Height(c.sib)), true)
  {
    TiltedJoin(m, c.side, s, c.n, c.sib);
  }

  /** The parent of a subtree that shrank learns about it; tells whether the parent was even before. */
  method DropParent(p: Node, ghost all: set<Node>, ghost c: Ctx, ghost s: Shape) returns (even: bool)
    requires Zip(View(all), c, s) && s.Bin? && s.n == p && c.In? && CtxNodes(c) + Nodes(s) <= all && p.parent != null
    requires Stored(View(all), s) && CtxStored(View(all), c, Height(s) + 1)
    modifies p.parent`balance
    ensures var t := Join(c.side, s, c.n, c.sib);
      && p.parent == t.n && Plug(c.up, t) == Plug(c, s) && CtxNodes(c.up) + Nodes(t) == CtxNodes(c) + Nodes(s)
      && Zip(View(all), c.up, t) && Shrunk(View(all), c.up, t, Over(Height(s) + 1, Height(c.sib)), even)
  {
    ghost var m := View(all);
    WhichSide(m, c, s);
    even := p.parent.balance == 0;
    if p.parent.left == p {
      p.parent.balance := p.parent.balance + 1;
    } else if p.parent.right == p {
      p.parent.balance := p.parent.balance - 1;
    }
    KeepZip(m, View(all), c, s);
    Up(View(all), c, s);
    ShrinkUp(m, View(all), c, s);
  }

  /** A subtree out of balance by two is rotated; `even` tells whether its taller child was even, so that no height is
    * lost. */
  method Restore(p: Node, ghost all: set<Node>, ghost c: Ctx, ghost s: Shape, ghost h: int)
    returns (top: Node, even: bool, ghost t: Shape)
    requires Zip(View(all), c, s) && s.Bin? && s.n == p && CtxNodes(c) + Nodes(s) <= all
    requires Shrunk(View(all), c, s, h, false) && (p.balance > 1 || p.balance < -1)
    modifies all`parent, all`left, all`right, all`balance
    ensures Zip(View(all), c, t) && Shrunk(View(all), c, t, h, even) && Stored(View(all), t) && top == Root(t)
    ensures Inorder(Plug(c, t)) == Inorder(Plug(c, s)) && CtxNodes(c) + Nodes(t) == CtxNodes(c) + Nodes(s)
  {
    ghost var m := View(all);
    even := false;
    HeavyLinked(m, c, s);
    if p.balance > 1 && p.right != null && p.right.balance == 0 {
      even := true;
    }
    if p.balance < -1 && p.left != null && p.left.balance == 0 {
      even := true;
    }
    top, t := Rebalance(p, all, c, s);
    AfterRotation(m, View(all), c, s, t, h);
  }

  lemma HeavyLinked(m: Mem, c: Ctx, s: Shape)
    requires Zip(m, c, s) && Tilted(m, s, 2) && (m[s.n].balance > 1 || m[s.n].balance < -1)
    ensures var h := Heavy(m, s);
      h.Bin? && h.n in m && h.n in Nodes(s) && h.n == (if m[s.n].balance > 1 then m[s.n].right else m[s.n].left)
  {
    var h := Heavy(m, s);
    assert Height(h) > 0;
  }

  method Cascade(p0: Node, flag0: bool, ghost all: set<Node>, ghost c0: Ctx, ghost s0: Shape, ghost h0: int)
    returns (p: Node, ghost s: Shape)
    requires Zip(View(all), c0, s0) && Shrunk(View(all), c0, s0, h0, flag0) && s0.n == p0
    requires CtxNodes(c0) + Nodes(s0) <= all
    modifies all`parent, all`left, all`right, all`balance
    ensures Zip(View(all), Top, s) && Stored(View(all), s) && p == Root(s)
    ensures Inorder(s) == Inorder(Plug(c0, s0)) && Nodes(s) == CtxNodes(c0) + Nodes(s0)
  {
    p, s := p0, s0;
    ghost var c, h := c0, h0;
    var run, flag := true, flag0;
    while run
      invariant Zip(View(all), c, s) && p == Root(s) && Inorder(Plug(c, s)) == Inorder(Plug(c0, s0))
      invariant Shrunk(View(all), c, s, h, flag) && CtxNodes(c) + Nodes(s) == CtxNodes(c0) + Nodes(s0)
      invariant !run ==> c.Top? && Stored(View(all), s)
      decreases run, Depth(c), !flag && (p.balance > 1 || p.balance < -1)
    {
      WhichSide(View(all), c, s);
      if flag {
        if p.parent == null {
          run := false;
        } else {
          StopUp(View(all), c, s, h);
          p := p.parent;
          c, s, h := c.up, Join(c.side, s, c.n, c.sib), Over(h, Height(c.sib));
        }
      } else if p.balance > 1 || p.balance < -1 {
        p, flag, s := Restore(p, all, c, s, h);
      } else {
        assert Stored(View(all), s);
        if p.parent == null {
          run := false;
        } else {
          flag := DropParent(p, all, c, s);
          p := p.parent;
          c, s, h := c.up, Join(c.side, s, c.n, c.sib), Over(Height(s) + 1, Height(c.sib));
        }
      }
    }
  }
}
