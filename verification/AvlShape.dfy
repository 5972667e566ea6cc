/**
 * Nodes of the parent-linked AVL tree and the ghost vocabulary to talk about them:
 * a `Shape` is the tree of node references below a pointer, a `Ctx` is everything
 * around such a subtree (a zipper: the path up to the root with the siblings hanging off it).
 */
module AvlShape {
  import opened CString

  /** n_data: NULL or a pointer, identified by a number. */
  datatype Payload = NoData | Data(ptr: nat)

  class Node {
    var parent: Node?
    var left: Node?
    var right: Node?
    var balance: int
    const key: string
    var data: Payload

    constructor (key: string, data: Payload)
      ensures this.key == key && this.data == data && Detached()
    {
      this.key, this.data := key, data;
      parent, left, right, balance := null, null, null, 0;
    }

    /** The link state create_node_avltree leaves and free_node_complex_avltree restores. */
    predicate Detached()
      reads this
    {
      parent == null && left == null && right == null && balance == 0
    }
  }

  datatype Shape = Nil | Bin(l: Shape, n: Node, r: Shape)

  datatype Side = Left | Right

  /** In(up, side, n, sib): the hole is the child of n on that side, sib is the other child. */
  datatype Ctx = Top | In(up: Ctx, side: Side, n: Node, sib: Shape)

  // ---------- structure ----------

  ghost function Nodes(s: Shape): set<Node> {
    if s.Nil? then {} else Nodes(s.l) + {s.n} + Nodes(s.r)
  }

  ghost function CtxNodes(c: Ctx): set<Node> {
    if c.Top? then {} else CtxNodes(c.up) + {c.n} + Nodes(c.sib)
  }

  ghost function Inorder(s: Shape): seq<Node> {
    if s.Nil? then [] else Inorder(s.l) + [s.n] + Inorder(s.r)
  }

  /** In-order nodes of the context that come before, respectively after, the hole. */
  ghost function Before(c: Ctx): seq<Node> {
    if c.Top? then []
    else if c.side.Left? then Before(c.up)
    else Before(c.up) + Inorder(c.sib) + [c.n]
  }

  ghost function After(c: Ctx): seq<Node> {
    if c.Top? then []
    else if c.side.Left? then [c.n] + Inorder(c.sib) + After(c.up)
    else After(c.up)
  }

  /** Height of a node over children of heights a and b. */
  function Over(a: int, b: int): int { 1 + if a > b then a else b }

  ghost function Height(s: Shape): (h: int)
    ensures h >= 0
  {
    if s.Nil? then 0 else Over(Height(s.l), Height(s.r))
  }

  ghost function Root(s: Shape): Node? {
    if s.Nil? then null else s.n
  }

  ghost function Owner(c: Ctx): Node? {
    if c.Top? then null else c.n
  }

  ghost function OwnerSet(c: Ctx): set<Node> {
    if c.Top? then {} else {c.n}
  }

  /** `s` below `n` on the given side, `sib` on the other. */
  ghost function Join(side: Side, s: Shape, n: Node, sib: Shape): Shape {
    if side.Left? then Bin(s, n, sib) else Bin(sib, n, s)
  }

  /** The shape of the whole tree when `s` stands in the hole of `c`. */
  ghost function Plug(c: Ctx, s: Shape): Shape {
    if c.Top? then s else Plug(c.up, Join(c.side, s, c.n, c.sib))
  }

  ghost function Depth(c: Ctx): nat {
    if c.Top? then 0 else 1 + Depth(c.up)
  }

  /** No node occurs twice. */
  ghost predicate Sep(s: Shape) {
    s.Bin? ==>
      s.n !in Nodes(s.l) && s.n !in Nodes(s.r) && Nodes(s.l) !! Nodes(s.r) && Sep(s.l) && Sep(s.r)
  }

  ghost predicate CtxSep(c: Ctx) {
    c.In? ==>
      && c.n !in Nodes(c.sib) && c.n !in CtxNodes(c.up) && Nodes(c.sib) !! CtxNodes(c.up)
      && Sep(c.sib) && CtxSep(c.up)
  }

  ghost predicate ZipSep(c: Ctx, s: Shape) {
    Sep(s) && CtxSep(c) && Nodes(s) !! CtxNodes(c)
  }

  // ---------- links and balances ----------

  /** The link and balance fields of a node. */
  datatype Cell = Cell(parent: Node?, left: Node?, right: Node?, balance: int) {
    function Child(side: Side): Node? { if side.Left? then left else right }

    predicate SameLinks(o: Cell) { parent == o.parent && left == o.left && right == o.right }
  }

  type Mem = map<Node, Cell>

  /** The current contents of the nodes in `ns`. */
  ghost function View(ns: set<Node>): (m: Mem)
    reads ns
  {
    map n | n in ns :: Cell(n.parent, n.left, n.right, n.balance)
  }

  /** The pointers of the subtree: every node points to its children and back to its parent. */
  ghost predicate Linked(m: Mem, s: Shape, p: Node?) {
    s.Bin? ==>
      && s.n in m && m[s.n].parent == p && m[s.n].left == Root(s.l) && m[s.n].right == Root(s.r)
      && Linked(m, s.l, s.n) && Linked(m, s.r, s.n)
  }

  ghost function Other(side: Side): Side { if side.Left? then Right else Left }

  ghost predicate CtxLinked(m: Mem, c: Ctx, hole: Node?) {
    c.In? ==>
      && c.n in m && m[c.n].parent == Owner(c.up)
      && m[c.n].Child(c.side) == hole && m[c.n].Child(Other(c.side)) == Root(c.sib)
      && Linked(m, c.sib, c.n) && CtxLinked(m, c.up, c.n)
  }

  ghost predicate Zip(m: Mem, c: Ctx, s: Shape) {
    ZipSep(c, s) && Linked(m, s, Owner(c)) && CtxLinked(m, c, Root(s))
  }

  /** The stored balances are the true height differences and lie in -1..1. */
  ghost predicate Stored(m: Mem, s: Shape) {
    s.Bin? ==>
      && s.n in m && m[s.n].balance == Height(s.r) - Height(s.l) && -1 <= m[s.n].balance <= 1
      && Stored(m, s.l) && Stored(m, s.r)
  }

  /** Height difference seen by a node whose child on `side` has height h, the other one height k. */
  ghost function Lean(side: Side, h: int, k: int): int { if side.Left? then k - h else h - k }

  /** The balances stored around the hole are right for a subtree of height `h` in it. */
  ghost predicate CtxStored(m: Mem, c: Ctx, h: int) {
    c.In? ==>
      && c.n in m && m[c.n].balance == Lean(c.side, h, Height(c.sib)) && -1 <= m[c.n].balance <= 1
      && Stored(m, c.sib) && CtxStored(m, c.up, Over(h, Height(c.sib)))
  }

  // ---------- what an update elsewhere leaves alone ----------

  ghost predicate SameLinks(m: Mem, m': Mem, ns: set<Node>) {
    forall n :: n in ns && n in m ==> n in m' && m'[n].SameLinks(m[n])
  }

  ghost predicate SameBalance(m: Mem, m': Mem, ns: set<Node>) {
    forall n :: n in ns && n in m ==> n in m' && m'[n].balance == m[n].balance
  }

  lemma {:induction false} KeepLinked(m: Mem, m': Mem, s: Shape, p: Node?)
    requires Linked(m, s, p) && SameLinks(m, m', Nodes(s))
    ensures Linked(m', s, p)
  {
    if s.Bin? {
      KeepLinked(m, m', s.l, s.n);
      KeepLinked(m, m', s.r, s.n);
    }
  }

  lemma {:induction false} KeepCtxLinked(m: Mem, m': Mem, c: Ctx, hole: Node?)
    requires CtxLinked(m, c, hole) && SameLinks(m, m', CtxNodes(c))
    ensures CtxLinked(m', c, hole)
  {
    if c.In? {
      KeepLinked(m, m', c.sib, c.n);
      KeepCtxLinked(m, m', c.up, c.n);
    }
  }

  lemma {:induction false} KeepStored(m: Mem, m': Mem, s: Shape)
    requires Stored(m, s) && SameBalance(m, m', Nodes(s))
    ensures Stored(m', s)
  {
    if s.Bin? {
      KeepStored(m, m', s.l);
      KeepStored(m, m', s.r);
    }
  }

  lemma {:induction false} KeepCtxStored(m: Mem, m': Mem, c: Ctx, h: int)
    requires CtxStored(m, c, h) && SameBalance(m, m', CtxNodes(c))
    ensures CtxStored(m', c, h)
  {
    if c.In? {
      KeepStored(m, m', c.sib);
      KeepCtxStored(m, m', c.up, Over(h, Height(c.sib)));
    }
  }

  /** Changes confined to `x` do not touch a subtree apart from `x`. */
  lemma StoredApart(m: Mem, m': Mem, s: Shape, x: set<Node>)
    requires Stored(m, s) && SameBalance(m, m', m.Keys - x) && Nodes(s) !! x
    ensures Stored(m', s)
  {
    KeepStored(m, m', s);
  }

  lemma AllStoredApart(m: Mem, m': Mem, ts: set<Shape>, x: set<Node>)
    requires forall t :: t in ts ==> Stored(m, t) && Nodes(t) !! x
    requires SameBalance(m, m', m.Keys - x)
    ensures forall t :: t in ts ==> Stored(m', t)
  {
    forall t | t in ts ensures Stored(m', t) { StoredApart(m, m', t, x); }
  }

  lemma LinkedApart(m: Mem, m': Mem, s: Shape, p: Node?, x: set<Node>)
    requires Linked(m, s, p) && SameLinks(m, m', m.Keys - x) && Nodes(s) !! x
    ensures Linked(m', s, p)
  {
    KeepLinked(m, m', s, p);
  }

  // ---------- facts about plugging ----------

  lemma {:induction false} PlugNodes(c: Ctx, s: Shape)
    ensures Nodes(Plug(c, s)) == CtxNodes(c) + Nodes(s)
    decreases c
  {
    if c.In? { PlugNodes(c.up, Join(c.side, s, c.n, c.sib)); }
  }

  lemma {:induction false} PlugInorder(c: Ctx, s: Shape)
    ensures Inorder(Plug(c, s)) == Before(c) + Inorder(s) + After(c)
    decreases c
  {
    if c.In? { PlugInorder(c.up, Join(c.side, s, c.n, c.sib)); }
  }

  lemma {:induction false} PlugLinked(m: Mem, c: Ctx, s: Shape)
    ensures Zip(m, c, s) <==> Sep(Plug(c, s)) && Linked(m, Plug(c, s), null)
    decreases c
  {
    if c.In? { PlugLinked(m, c.up, Join(c.side, s, c.n, c.sib)); }
  }

  lemma {:induction false} PlugStored(m: Mem, c: Ctx, s: Shape)
    ensures CtxStored(m, c, Height(s)) && Stored(m, s) <==> Stored(m, Plug(c, s))
    decreases c
  {
    if c.In? {
      var t := Join(c.side, s, c.n, c.sib);
      PlugStored(m, c.up, t);
      assert Height(t) == Over(Height(s), Height(c.sib));
    }
  }

  lemma {:induction false} InorderNodes(s: Shape)
    ensures forall n :: n in Inorder(s) <==> n in Nodes(s)
  {
    if s.Bin? {
      InorderNodes(s.l);
      InorderNodes(s.r);
    }
  }

  ghost predicate NoDup(q: seq<Node>) {
    forall n :: n in q ==> multiset(q)[n] == 1
  }

  /** A tree has no node twice exactly when its in-order sequence has none. */
  lemma {:induction false} SepNoDup(s: Shape)
    ensures Sep(s) <==> NoDup(Inorder(s))
  {
    if s.Bin? {
      SepNoDup(s.l);
      SepNoDup(s.r);
      InorderNodes(s.l);
      InorderNodes(s.r);
      var p, q := Inorder(s.l), Inorder(s.r);
      NoDupSplit(p, s.n, q);
      Apart(Nodes(s.l), Nodes(s.r), p, q);
    }
  }

  lemma Apart(a: set<Node>, b: set<Node>, p: seq<Node>, q: seq<Node>)
    requires (forall x :: x in p <==> x in a) && (forall x :: x in q <==> x in b)
    ensures a !! b <==> forall x :: x in p ==> x !in q
  {
    assert a !! b <==> forall x :: x in a ==> x !in b;
  }

  lemma SameElements(q: seq<Node>, a: set<Node>, b: set<Node>)
    requires (forall n :: n in q <==> n in a) && (forall n :: n in q <==> n in b)
    ensures a == b
  {
    assert forall n :: n in a <==> n in b;
  }

  lemma SepFromInorder(s: Shape, q: seq<Node>)
    requires q == Inorder(s)
    ensures Sep(s) <==> NoDup(q)
  {
    SepNoDup(s);
  }

  /** Rearranging a tree without changing its in-order sequence keeps its nodes, still once each. */
  lemma SameInorder(s: Shape, t: Shape)
    requires Inorder(s) == Inorder(t)
    ensures Nodes(s) == Nodes(t) && (Sep(s) <==> Sep(t))
  {
    var q := Inorder(s);
    SepFromInorder(s, q);
    SepFromInorder(t, q);
    InorderNodes(s);
    InorderNodes(t);
    SameElements(q, Nodes(s), Nodes(t));
  }

  lemma NoDupSplit(p: seq<Node>, n: Node, q: seq<Node>)
    ensures NoDup(p + [n] + q) <==> NoDup(p) && NoDup(q) && n !in p && n !in q && forall x :: x in p ==> x !in q
  {
    var w := p + [n] + q;
    assert multiset(w) == multiset(p) + multiset{n} + multiset(q);
    assert forall x :: x in w <==> x in p || x == n || x in q;
    assert forall x :: x in p <==> x in multiset(p);
    assert forall x :: x in q <==> x in multiset(q);
    if NoDup(w) {
      assert n in w;
      forall x | x in p || x in q ensures multiset(p)[x] + multiset(q)[x] == 1 && x != n { assert x in w; }
    }
  }

  /** Any node of a tree can be brought into focus. */
  lemma {:induction false} Focus(c: Ctx, s: Shape, n: Node) returns (c': Ctx, f: Shape)
    requires n in Nodes(s)
    ensures f.Bin? && f.n == n && Plug(c', f) == Plug(c, s)
    decreases s
  {
    if s.n == n {
      c', f := c, s;
    } else if n in Nodes(s.l) {
      c', f := Focus(In(c, Left, s.n, s.r), s.l, n);
    } else {
      c', f := Focus(In(c, Right, s.n, s.l), s.r, n);
    }
  }
}
