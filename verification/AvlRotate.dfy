/** The four rotations on the nodes themselves, and the choice between them. */
module AvlRotate {
  import opened AvlShape
  import opened AvlRotation

  const AVL_RIGHT := 0x1
  const AVL_LEFT := 0x2
  const AVL_RIGHTRIGHT := 0x5
  const AVL_LEFTRIGHT := 0x6
  const AVL_RIGHTLEFT := 0x9
  const AVL_LEFTLEFT := 0xA

  /** `f`, if there is one, now has `to` where it had `from`. */
  twostate predicate Redirected(f: Node?, from: Node, to: Node)
    reads f
  {
    f != null ==>
      if old(f.right) == from then f.right == to && f.left == old(f.left)
      else f.left == to && f.right == old(f.right)
  }

  ghost function Just(n: Node?): set<Node> { if n == null then {} else {n} }

  method Adopt(p: Node, child: Node?)
    modifies Just(child)`parent
    ensures child != null ==> child.parent == p
  {
    if child != null {
      child.parent := p;
    }
  }

  method Redirect(f: Node?, from: Node, to: Node)
    modifies Just(f)`left, Just(f)`right
    ensures f != null ==> if old(f.right) == from then f.right == to && f.left == old(f.left)
                          else f.left == to && f.right == old(f.right)
  {
    if f != null {
      if f.right == from { f.right := to; } else { f.left := to; }
    }
  }

  /** The six nodes a double rotation writes to are all different. */
  predicate ThreeApart(a: Node, b: Node, k: Node)
    reads a, k
  {
    && a != b && a != k && b != k
    && k.left != a && k.left != b && k.left != k && k.right != a && k.right != b && k.right != k
    && (k.left != null ==> k.left != k.right)
    && (a.parent != null ==>
          a.parent != a && a.parent != b && a.parent != k && a.parent != k.left && a.parent != k.right)
  }

  method RotateLeftLeft(a: Node) returns (b: Node)
    requires a.left != null && a.left != a
    requires a.left.right != null ==> a.left.right != a && a.left.right != a.left
    requires a.parent != null ==> a.parent != a && a.parent != a.left && a.parent != a.left.right
    modifies {a, a.left}`parent, {a, a.left}`left, {a, a.left}`right, {a, a.left}`balance
    modifies Just(a.left.right)`parent, Just(a.parent)`left, Just(a.parent)`right
    ensures b == old(a.left)
    ensures a.parent == b && a.left == old(b.right) && a.right == old(a.right)
    ensures b.parent == old(a.parent) && b.left == old(b.left) && b.right == a
    ensures a.left != null ==> a.left.parent == a
    ensures Redirected(old(a.parent), a, b)
    ensures if old(b.balance) == 0 then a.balance == -1 && b.balance == 1 else a.balance == 0 && b.balance == 0
  {
    var f := a.parent;
    b := a.left;

    a.left := b.right;
    Adopt(a, b.right);
    b.right := a;
    a.parent := b;
    b.parent := f;
    Redirect(f, a, b);
    if b.balance == 0 {
      a.balance, b.balance := -1, 1;
    } else {
      a.balance, b.balance := 0, 0;
    }
  }

  method RotateRightRight(a: Node) returns (b: Node)
    requires a.right != null && a.right != a
    requires a.right.left != null ==> a.right.left != a && a.right.left != a.right
    requires a.parent != null ==> a.parent != a && a.parent != a.right && a.parent != a.right.left
    modifies {a, a.right}`parent, {a, a.right}`left, {a, a.right}`right, {a, a.right}`balance
    modifies Just(a.right.left)`parent, Just(a.parent)`left, Just(a.parent)`right
    ensures b == old(a.right)
    ensures a.parent == b && a.right == old(b.left) && a.left == old(a.left)
    ensures b.parent == old(a.parent) && b.right == old(b.right) && b.left == a
    ensures a.right != null ==> a.right.parent == a
    ensures Redirected(old(a.parent), a, b)
    ensures if old(b.balance) == 0 then a.balance == 1 && b.balance == -1 else a.balance == 0 && b.balance == 0
  {
    var f := a.parent;
    b := a.right;

    a.right := b.left;
    Adopt(a, b.left);
    b.left := a;
    a.parent := b;
    b.parent := f;
    Redirect(f, a, b);
    if b.balance == 0 {
      a.balance, b.balance := 1, -1;
    } else {
      a.balance, b.balance := 0, 0;
    }
  }

  method RotateLeftRight(a: Node) returns (k: Node)
    requires a.left != null && a.left.right != null
    requires ThreeApart(a, a.left, a.left.right)
    modifies {a, a.left, a.left.right}`parent, {a, a.left, a.left.right}`left, {a, a.left, a.left.right}`right,
      {a, a.left, a.left.right}`balance
    modifies Just(a.left.right.left)`parent, Just(a.left.right.right)`parent
    modifies Just(a.parent)`left, Just(a.parent)`right
    ensures k == old(a.left.right)
    ensures k.parent == old(a.parent) && k.left == old(a.left) && k.right == a && k.balance == 0
    ensures a.parent == k && a.left == old(k.right) && a.right == old(a.right)
    ensures old(a.left).parent == k && old(a.left).left == old(a.left.left) && old(a.left).right == old(k.left)
    ensures a.left != null ==> a.left.parent == a
    ensures old(a.left).right != null ==> old(a.left).right.parent == old(a.left)
    ensures (old(k.balance) == 0 ==> a.balance == 0 && old(a.left).balance == 0)
    ensures (old(k.balance) == -1 ==> a.balance == 1 && old(a.left).balance == 0)
    ensures (old(k.balance) == 1 ==> a.balance == 0 && old(a.left).balance == -1)
    ensures Redirected(old(a.parent), a, k)
  {
    var f := a.parent;
    var b := a.left;
    k := b.right;

    a.left := k.right;
    Adopt(a, k.right);
    b.right := k.left;
    Adopt(b, k.left);
    k.right := a;
    k.left := b;
    b.parent := k;
    a.parent := k;
    k.parent := f;
    Redirect(f, a, k);
    a.balance, b.balance :=
      match k.balance case 0 => 0 case -1 => 1 case 1 => 0 case _ => a.balance,
      match k.balance case 0 => 0 case -1 => 0 case 1 => -1 case _ => b.balance;
    k.balance := 0;
  }

  method RotateRightLeft(a: Node) returns (k: Node)
    requires a.right != null && a.right.left != null
    requires ThreeApart(a, a.right, a.right.left)
    modifies {a, a.right, a.right.left}`parent, {a, a.right, a.right.left}`left, {a, a.right, a.right.left}`right,
      {a, a.right, a.right.left}`balance
    modifies Just(a.right.left.left)`parent, Just(a.right.left.right)`parent
    modifies Just(a.parent)`left, Just(a.parent)`right
    ensures k == old(a.right.left)
    ensures k.parent == old(a.parent) && k.right == old(a.right) && k.left == a && k.balance == 0
    ensures a.parent == k && a.right == old(k.left) && a.left == old(a.left)
    ensures old(a.right).parent == k && old(a.right).right == old(a.right.right) && old(a.right).left == old(k.right)
    ensures a.right != null ==> a.right.parent == a
    ensures old(a.right).left != null ==> old(a.right).left.parent == old(a.right)
    ensures (old(k.balance) == 0 ==> a.balance == 0 && old(a.right).balance == 0)
    ensures (old(k.balance) == -1 ==> a.balance == 0 && old(a.right).balance == 1)
    ensures (old(k.balance) == 1 ==> a.balance == -1 && old(a.right).balance == 0)
    ensures Redirected(old(a.parent), a, k)
  {
    var f := a.parent;
    var b := a.right;
    k := b.left;

    b.left := k.right;
    Adopt(b, k.right);
    a.right := k.left;
    Adopt(a, k.left);
    k.right := b;
    k.left := a;
    b.parent := k;
    a.parent := k;
    k.parent := f;
    Redirect(f, a, k);
    a.balance, b.balance :=
      match k.balance case 0 => 0 case -1 => 0 case 1 => -1 case _ => a.balance,
      match k.balance case 0 => 0 case -1 => 1 case 1 => 0 case _ => b.balance;
    k.balance := 0;
  }

  method LeftLeftAt(a: Node, ghost repr: set<Node>, ghost c: Ctx, ghost s: Shape) returns (b: Node, ghost t: Shape)
    requires CtxNodes(c) + Nodes(s) <= repr && Zip(View(repr), c, s)
    requires Tilted(View(repr), s, 2) && s.n == a && a.balance == -2 && s.l.n.balance <= 0
    modifies repr`parent, repr`left, repr`right, repr`balance
    ensures Rotated(old(View(repr)), View(repr), c, s, t) && b == t.n
    ensures Height(t) == Height(s) - (if old(s.l.n.balance) == 0 then 0 else 1)
  {
    ghost var m, bl, br, ar := View(repr), s.l.l, s.l.r, s.r;
    SingleStart(m, c, Left, bl, s.l.n, br, a, ar);
    b := RotateLeftLeft(a);
    SingleRotation(m, View(repr), c, Left, bl, b, br, a, ar);
    t := SingleDone(Left, bl, b, br, a, ar);
  }

  method RightRightAt(a: Node, ghost repr: set<Node>, ghost c: Ctx, ghost s: Shape) returns (b: Node, ghost t: Shape)
    requires CtxNodes(c) + Nodes(s) <= repr && Zip(View(repr), c, s)
    requires Tilted(View(repr), s, 2) && s.n == a && a.balance == 2 && s.r.n.balance >= 0
    modifies repr`parent, repr`left, repr`right, repr`balance
    ensures Rotated(old(View(repr)), View(repr), c, s, t) && b == t.n
    ensures Height(t) == Height(s) - (if old(s.r.n.balance) == 0 then 0 else 1)
  {
    ghost var m, bl, br, ar := View(repr), s.r.r, s.r.l, s.l;
    SingleStart(m, c, Right, bl, s.r.n, br, a, ar);
    b := RotateRightRight(a);
    SingleRotation(m, View(repr), c, Right, bl, b, br, a, ar);
    t := SingleDone(Right, bl, b, br, a, ar);
  }

  /** The moves of a left-right rotation, in terms of the subtrees they rearrange. */
  method MoveLeftRight(a: Node, ghost repr: set<Node>, ghost c: Ctx, ghost b: Node, ghost ko: Shape, ghost k0: Node,
                       ghost ki: Shape)
    returns (k: Node)
    requires DoubleReady(View(repr), c, Left, b, ko, k0, ki, a) && -1 <= k0.balance <= 1
    modifies repr`parent, repr`left, repr`right, repr`balance
    ensures k == k0 && DoubleMoves(old(View(repr)), View(repr), c, Left, b, ko, k, ki, a)
  {
    k := RotateLeftRight(a);
  }

  method MoveRightLeft(a: Node, ghost repr: set<Node>, ghost c: Ctx, ghost b: Node, ghost ko: Shape, ghost k0: Node,
                       ghost ki: Shape)
    returns (k: Node)
    requires DoubleReady(View(repr), c, Right, b, ko, k0, ki, a) && -1 <= k0.balance <= 1
    modifies repr`parent, repr`left, repr`right, repr`balance
    ensures k == k0 && DoubleMoves(old(View(repr)), View(repr), c, Right, b, ko, k, ki, a)
  {
    k := RotateRightLeft(a);
  }

  method LeftRightAt(a: Node, ghost repr: set<Node>, ghost c: Ctx, ghost s: Shape) returns (k: Node, ghost t: Shape)
    requires CtxNodes(c) + Nodes(s) <= repr && Zip(View(repr), c, s)
    requires Tilted(View(repr), s, 2) && s.n == a && a.balance == -2 && s.l.n.balance == 1
    modifies repr`parent, repr`left, repr`right, repr`balance
    ensures Rotated(old(View(repr)), View(repr), c, s, t) && k == t.n
    ensures Height(t) == Height(s) - 1
  {
    ghost var m, l, z := View(repr), s.l, s.l.r;
    DoubleTilt(m, Left, s);
    assert s == Double(Left, l.l, l.n, z.l, z.n, z.r, a, s.r) && m[l.n].balance == 1 && m[a].balance == -2
      && Sign(Left) == -1;
    DoubleStart(m, c, Left, l.l, l.n, z.l, z.n, z.r, a, s.r);
    assert m[z.n].balance == z.n.balance;
    t := DoubleDone(Left, l.l, l.n, z.l, z.n, z.r, a, s.r);
    assert t.n == z.n;
    hide *;
    k := MoveLeftRight(a, repr, c, l.n, z.l, z.n, z.r);
    DoubleRotation(m, View(repr), c, Left, l.l, l.n, z.l, z.n, z.r, a, s.r);
  }

  method RightLeftAt(a: Node, ghost repr: set<Node>, ghost c: Ctx, ghost s: Shape) returns (k: Node, ghost t: Shape)
    requires CtxNodes(c) + Nodes(s) <= repr && Zip(View(repr), c, s)
    requires Tilted(View(repr), s, 2) && s.n == a && a.balance == 2 && s.r.n.balance == -1
    modifies repr`parent, repr`left, repr`right, repr`balance
    ensures Rotated(old(View(repr)), View(repr), c, s, t) && k == t.n
    ensures Height(t) == Height(s) - 1
  {
    ghost var m, l, z := View(repr), s.r, s.r.l;
    DoubleTilt(m, Right, s);
    assert s == Double(Right, l.r, l.n, z.r, z.n, z.l, a, s.l) && m[l.n].balance == -1 && m[a].balance == 2
      && Sign(Right) == 1;
    DoubleStart(m, c, Right, l.r, l.n, z.r, z.n, z.l, a, s.l);
    assert m[z.n].balance == z.n.balance;
    t := DoubleDone(Right, l.r, l.n, z.r, z.n, z.l, a, s.l);
    assert t.n == z.n;
    hide *;
    k := MoveRightLeft(a, repr, c, l.n, z.r, z.n, z.l);
    DoubleRotation(m, View(repr), c, Right, l.r, l.n, z.r, z.n, z.l, a, s.l);
  }

  method Rebalance(n: Node, ghost repr: set<Node>, ghost c: Ctx, ghost s: Shape) returns (top: Node, ghost t: Shape)
    requires CtxNodes(c) + Nodes(s) <= repr && Zip(View(repr), c, s)
    requires Tilted(View(repr), s, 2) && s.n == n && (n.balance == -2 || n.balance == 2)
    modifies repr`parent, repr`left, repr`right, repr`balance
    ensures Rotated(old(View(repr)), View(repr), c, s, t) && top == t.n
    ensures Heavy(old(View(repr)), s).Bin?
    ensures Height(t) == Height(s) - (if old(Heavy(View(repr), s).n.balance) == 0 then 0 else 1)
  {
    var child := if n.balance == -2 then n.left else n.right;
    var rtype := if n.balance == -2 then AVL_LEFT else AVL_RIGHT;
    if child.balance == 0 {
      rtype := rtype + 4 * rtype;
    } else {
      rtype := rtype + 4 * (if child.balance == -1 then AVL_LEFT else AVL_RIGHT);
    }
    match rtype {
      case AVL_LEFTRIGHT => top, t := LeftRightAt(n, repr, c, s);
      case AVL_RIGHTLEFT => top, t := RightLeftAt(n, repr, c, s);
      case AVL_LEFTLEFT => top, t := LeftLeftAt(n, repr, c, s);
      case AVL_RIGHTRIGHT => top, t := RightRightAt(n, repr, c, s);
    }
  }
}
