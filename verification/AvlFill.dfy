/** del_node_complex_avltree up to its loop: what takes the place of the deleted node. */
module AvlFill {
  import opened AvlShape
  import opened AvlRotation
  import opened AvlRotate
  import opened AvlRetrace
  import opened AvlUnlink

  /** One call of the free callback: the key and the payload it is given. */
  type Freed = seq<(string, Payload)>

  /** What freeing a node with this payload hands to the callback. */
  function FreeCalls(n: Node, data: Payload, callback: bool): Freed {
    if callback && data.Data? then [(n.key, data)] else []
  }

  method FreeNode(n: Node, callback: bool) returns (calls: Freed)
    modifies n`parent, n`left, n`right, n`balance, n`data
    ensures n.Detached() && calls == FreeCalls(n, old(n.data), callback)
    ensures n.data == if callback then NoData else old(n.data)
  {
    n.parent, n.left, n.right, n.balance := null, null, null, 0;
    calls := [];
    if n.data != NoData && callback {
      calls := [(n.key, n.data)];
      n.data := NoData;
    }
  }

  /** The same, as no more than a change to `n`. */
  method Release(n: Node, callback: bool, ghost all: set<Node>) returns (calls: Freed)
    modifies n`parent, n`left, n`right, n`balance, n`data
    ensures calls == FreeCalls(n, old(n.data), callback) && n.Detached() && Outside(old(View(all)), View(all), {n})
  {
    calls := FreeNode(n, callback);
  }

  /** The owner `f` of `n`, if there is one, has `heir` in its place. */
  twostate predicate Supplanted(f: Node?, n: Node, heir: Node)
    reads f
  {
    f != null ==>
      && f.left == (if old(f.left) == n then heir else old(f.left))
      && f.right == (if old(f.left) != n && old(f.right) == n then heir else old(f.right))
  }

  /** `heir` takes over the parent, the left subtree and the balance of `n`. */
  method TakeOver(n: Node, heir: Node)
    requires heir != n && n.left != heir && n.left != n && n.parent != n && n.parent != heir
    requires n.parent != null ==> n.parent != n.left
    modifies heir`parent, heir`left, heir`balance
    modifies Just(n.left)`parent, Just(n.parent)`left, Just(n.parent)`right
    ensures heir.parent == old(n.parent) && heir.left == old(n.left) && heir.balance == old(n.balance)
    ensures heir.left != null ==> heir.left.parent == heir
    ensures Supplanted(n.parent, n, heir)
  {
    heir.left := n.left;
    if heir.left != null {
      heir.left.parent := heir;
    }
    heir.balance := n.balance;
    heir.parent := n.parent;
    if n.parent != null {
      if n.parent.left == n {
        n.parent.left := heir;
      } else if n.parent.right == n {
        n.parent.right := heir;
      }
    }
  }

  /** The pointers and the balance of case 1: the left child of `n`, if any, takes its place below its parent, if
    * any. */
  method Move1(n: Node, ghost all: set<Node>, ghost c: Ctx, ghost l: Shape) returns (p: Node?, run: bool, flag: bool)
    requires Case1Ready(View(all), c, l, n)
    modifies all`parent, all`left, all`right, all`balance
    ensures Case1Moves(old(View(all)), View(all), c, l, n) && run == c.In?
    ensures if run then p == c.n && flag == (old(c.n.balance) == 0) else p == Root(l)
  {
    run, flag := true, false;
    p := n.left;
    if n.parent != null {
      flag := DropChild(n, p);
    }
    if p == null {
      p := n.parent;
      if p == null {
        run := false;
      }
    } else {
      p.parent := n.parent;
      if p.parent != null {
        p := p.parent;
      } else {
        run := false;
      }
    }
  }

  /** And the node that it replaces is freed. */
  method Take1(n: Node, callback: bool, ghost all: set<Node>, ghost c: Ctx, ghost l: Shape)
    returns (p: Node?, run: bool, flag: bool, calls: Freed)
    requires Case1Ready(View(all), c, l, n)
    modifies all`parent, all`left, all`right, all`balance, n`data
    ensures calls == FreeCalls(n, old(n.data), callback) && n.Detached()
    ensures Case1Moves(old(View(all)), View(all), c, l, n) && run == c.In?
    ensures if run then p == c.n && flag == (old(c.n.balance) == 0) else p == Root(l)
  {
    ghost var m := View(all);
    assert n in all;
    hide *;
    p, run, flag := Move1(n, all, c, l);
    ghost var m1 := View(all);
    calls := Release(n, callback, all);
    Case1Freed(m, m1, View(all), c, l, n);
  }

  /** The parent of `n` takes over its only child `p`; tells whether it was even before. */
  method DropChild(n: Node, p: Node?) returns (even: bool)
    requires n.parent != null && n.parent != n && (n.parent.left == n || n.parent.right == n)
      && n.parent.left != n.parent.right
    modifies n.parent`left, n.parent`right, n.parent`balance
    ensures var f := n.parent;
      && even == (old(f.balance) == 0)
      && f.left == (if old(f.left) == n then p else old(f.left))
        && f.right == (if old(f.right) == n then p else old(f.right))
      && f.balance == old(f.balance) + if old(f.left) == n then 1 else -1
  {
    even := n.parent.balance == 0;
    if n.parent.left == n {
      n.parent.left := p;
      n.parent.balance := n.parent.balance + 1;
    } else if n.parent.right == n {
      n.parent.right := p;
      n.parent.balance := n.parent.balance - 1;
    }
  }

  /** Case 1: `n` has no right child and its left one, if any, replaces it. */
  method Fill1(n: Node, callback: bool, ghost all: set<Node>, ghost c: Ctx, ghost l: Shape)
    returns (p: Node?, run: bool, flag: bool, calls: Freed)
    requires Zip(View(all), c, Bin(l, n, Nil)) && CtxNodes(c) + Nodes(l) + {n} <= all
    requires Stored(View(all), Bin(l, n, Nil)) && CtxStored(View(all), c, Height(l) + 1)
    modifies all`parent, all`left, all`right, all`balance, n`data
    ensures calls == FreeCalls(n, old(n.data), callback) && n.Detached()
    ensures Zip(View(all), c, l) && run == c.In?
    ensures run ==>
      p == c.n && Shrunk(View(all), c.up, Join(c.side, l, c.n, c.sib), Over(Height(l) + 1, Height(c.sib)), flag)
    ensures !run ==> p == Root(l) && Stored(View(all), l)
  {
    ghost var m := View(all);
    AroundNode(m, c, l, n, Nil);
    assert Height(Bin(l, n, Nil)) == Height(l) + 1 && Case1Ready(m, c, l, n);
    assert c.In? ==> m[c.n].balance == c.n.balance;
    hide *;
    p, run, flag, calls := Take1(n, callback, all, c, l);
    Case1(m, View(all), c, l, n);
  }

  /** The pointers and the balance of case 2: the right child `p` takes the place of `n`. */
  method Move2(n: Node, p: Node, ghost all: set<Node>, ghost c: Ctx, ghost l: Shape) returns (flag: bool)
    requires Case2Ready(View(all), c, l, n, p)
    modifies all`parent, all`left, all`right, all`balance
    ensures flag == (c.In? && old(n.balance) == 0) && Case2Moves(old(View(all)), View(all), c, l, n, p)
  {
    flag := n.parent != null && n.balance == 0;
    TakeOver(n, p);
    p.balance := p.balance - 1;
  }

  /** Case 2: the right child `p` has no left child and moves up. */
  method Fill2(n: Node, p: Node, callback: bool, ghost all: set<Node>, ghost c: Ctx, ghost l: Shape, ghost r: Shape)
    returns (flag: bool, ghost h: int, calls: Freed)
    requires Zip(View(all), c, Bin(l, n, r)) && CtxNodes(c) + Nodes(l) + {n} + Nodes(r) <= all
    requires r.Bin? && r.n == p && r.l == Nil
    requires Stored(View(all), Bin(l, n, r)) && CtxStored(View(all), c, Height(Bin(l, n, r)))
    modifies all`parent, all`left, all`right, all`balance, n`data
    ensures calls == FreeCalls(n, old(n.data), callback) && n.Detached()
    ensures Zip(View(all), c, Bin(l, p, r.r)) && Shrunk(View(all), c, Bin(l, p, r.r), h, flag)
  {
    ghost var m := View(all);
    AroundNode(m, c, l, n, r);
    assert Case2Ready(m, c, l, n, p) && m[n].balance == n.balance;
    hide *;
    flag := Move2(n, p, all, c, l);
    ghost var m1 := View(all);
    calls := Release(n, callback, all);
    Case2Freed(m, m1, View(all), c, l, n, p);
    h := Case2(m, View(all), c, l, n, r, p, r.r);
  }

  /** The nodes that case 3 reads and writes are all different. */
  predicate PromotionApart(n: Node, w: Node, s: Node)
    reads n, s
  {
    && s != n && s != w && w != n && s != n.left && s != n.right && s != s.right
    && w != n.left && n != n.left && n != n.right && n.left != n.right
    && n.parent != n && n.parent != s && n.parent != w
    && (n.parent != null ==> n.parent != n.left && n.parent != n.right)
    && (s.right != null ==>
          s.right != n && s.right != w && s.right != n.left && s.right != n.right && s.right != n.parent)
  }

  /** The pointers of case 3: the leftmost node below `w` leaves it and takes over from `n`. */
  method Promote(n: Node, w: Node) returns (s: Node)
    requires w.left != null && n.left != null && n.right != null
    requires PromotionApart(n, w, w.left)
    modifies w.left`parent, w.left`left, w.left`right, w.left`balance, w`left, w`parent
    modifies n.left`parent, n.right`parent, Just(w.left.right)`parent, Just(n.parent)`left, Just(n.parent)`right
    ensures s == old(w.left)
    ensures s.parent == old(n.parent) && s.left == old(n.left) && s.right == old(n.right) && s.balance == old(n.balance)
    ensures n.left.parent == s && n.right.parent == s
    ensures w.left == old(s.right) && (w.left != null ==> w.left.parent == w)
    ensures w != n.right ==> w.parent == old(w.parent)
    ensures Supplanted(n.parent, n, s)
  {
    s := w.left;
    w.left := s.right;
    Adopt(w, w.left);
    s.right := n.right;
    Adopt(s, s.right);
    TakeOver(n, s);
  }

  method Move3(n: Node, w: Node, ghost all: set<Node>, ghost c: Ctx, ghost l: Shape, ghost r: Shape,
               ghost s: Node, ghost sr: Shape)
    returns (flag: bool)
    requires Case3Ready(View(all), c, l, n, r, w, s, sr) && l.Bin?
    modifies all`parent, all`left, all`right, all`balance
    ensures flag == (old(w.balance) == 0) && Case3Moves(old(View(all)), View(all), c, l, n, r, w, s, sr)
  {
    ghost var m := View(all);
    var t := Promote(n, w);
    flag := w.balance == 0;
    w.balance := w.balance + 1;
    ghost var m' := View(all);
    assert m'[s] == Cell(Owner(c), Root(l), r.n, m[n].balance);
    assert m'[w] == m[w].(left := Root(sr), balance := m[w].balance + 1, parent := if w == r.n then s else m[w].parent);
    assert w != r.n ==> m'[r.n] == m[r.n].(parent := s);
  }

  /** And the node that it replaces is freed. */
  method Take3(n: Node, w: Node, callback: bool, ghost all: set<Node>, ghost c: Ctx, ghost l: Shape, ghost r: Shape,
               ghost s: Node, ghost sr: Shape)
    returns (flag: bool, calls: Freed)
    requires Case3Ready(View(all), c, l, n, r, w, s, sr) && l.Bin?
    modifies all`parent, all`left, all`right, all`balance, n`data
    ensures calls == FreeCalls(n, old(n.data), callback) && n.Detached()
    ensures flag == (old(w.balance) == 0) && Case3Moves(old(View(all)), View(all), c, l, n, r, w, s, sr)
  {
    ghost var m := View(all);
    assert n in all;
    hide *;
    flag := Move3(n, w, all, c, l, r, s, sr);
    ghost var m1 := View(all);
    calls := Release(n, callback, all);
    Case3Freed(m, m1, View(all), c, l, n, r, w, s, sr);
  }

  /** Case 3: the leftmost node below the right child moves up; `w` is its parent. */
  method Fill3(n: Node, w: Node, callback: bool, ghost all: set<Node>, ghost c: Ctx, ghost l: Shape, ghost r: Shape,
               ghost cc: Ctx, ghost s: Node, ghost sr: Shape)
    returns (flag: bool, calls: Freed)
    requires Case3Start(View(all), c, l, n, r, cc, s, sr) && cc.n == w && l.Bin?
    requires Stored(View(all), Bin(Nil, s, sr)) && CtxStored(View(all), cc, Height(Bin(Nil, s, sr)))
    modifies all`parent, all`left, all`right, all`balance, n`data
    ensures calls == FreeCalls(n, old(n.data), callback) && n.Detached()
    ensures var g := Graft(cc, In(c, Right, n, l), In(c, Right, s, l));
      && g == In(g.up, Left, w, cc.sib) && Zip(View(all), g, sr)
      && Shrunk(View(all), g.up, Join(Left, sr, w, cc.sib), Over(Height(sr) + 1, Height(cc.sib)), flag)
  {
    ghost var m := View(all);
    Case3Around(m, c, l, n, r, cc, s, sr);
    assert m[w].balance == w.balance;
    hide *;
    flag, calls := Take3(n, w, callback, all, c, l, r, s, sr);
    Case3(m, View(all), c, l, n, r, cc, s, sr);
  }
}
