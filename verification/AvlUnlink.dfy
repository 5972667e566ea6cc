/**
 * Taking a node out of the tree, without the heap: the three ways in which del_node_complex_avltree
 * fills the place of the deleted node, up to the point where its rebalancing loop starts.
 */
module AvlUnlink {
  import opened AvlShape
  import opened AvlRotation
  import opened AvlRetrace

  // ---------- case 1: no right child ----------

  /** Pointers after the left subtree took the place of the node: only its root and the owner know. */
  ghost predicate Case1Moves(m: Mem, m': Mem, c: Ctx, l: Shape, n: Node) {
    && Outside(m, m', {n} + RootSet(l) + OwnerSet(c))
    && (l.Bin? ==> l.n in m && m'[l.n] == m[l.n].(parent := Owner(c)))
    && (c.In? ==>
          && c.n in m && m'[c.n].parent == m[c.n].parent && m'[c.n].Child(c.side) == Root(l)
          && m'[c.n].Child(Other(c.side)) == m[c.n].Child(Other(c.side))
          && m'[c.n].balance == m[c.n].balance - Sign(c.side))
  }

  /** What case 1 reads before it writes, and that the nodes it writes to are all different. */
  ghost predicate Case1Ready(m: Mem, c: Ctx, l: Shape, n: Node) {
    && {n} + RootSet(l) + OwnerSet(c) <= m.Keys && (l.Bin? ==> l.n != n) && (c.In? ==> c.n != n && Root(l) != c.n)
    && m[n].parent == Owner(c) && m[n].left == Root(l) && m[n].right == null
    && (c.In? ==> (m[c.n].left == n <==> c.side.Left?) && (m[c.n].right == n <==> c.side.Right?))
  }

  /** Clearing the node that was taken out makes no difference. */
  lemma Case1Freed(m: Mem, m1: Mem, m2: Mem, c: Ctx, l: Shape, n: Node)
    requires Case1Ready(m, c, l, n) && Case1Moves(m, m1, c, l, n) && Outside(m1, m2, {n})
    ensures Case1Moves(m, m2, c, l, n)
  {
  }

  lemma Case1Linked(m: Mem, m': Mem, c: Ctx, l: Shape, n: Node)
    requires Zip(m, c, Bin(l, n, Nil)) && Case1Moves(m, m', c, l, n)
    ensures Zip(m', c, l)
  {
    RootWithin(l);
    TurnedLinked(m, m', c, n, Root(l));
    AdoptedLinked(m, m', l, n, Owner(c));
  }

  lemma Case1Balance(m: Mem, m': Mem, c: Ctx, l: Shape, n: Node)
    requires c.In? && Zip(m, c, Bin(l, n, Nil)) && Case1Moves(m, m', c, l, n)
    requires Stored(m, Bin(l, n, Nil)) && CtxStored(m, c, Height(Bin(l, n, Nil)))
    ensures Shrunk(m', c.up, Join(c.side, l, c.n, c.sib), Over(Height(l) + 1, Height(c.sib)), m[c.n].balance == 0)
  {
    assert Height(Bin(l, n, Nil)) == Height(l) + 1;
    assert n !in Nodes(l) + CtxNodes(c);
    ShrinkUpAside(m, m', c, l, n);
  }

  /** ShrinkUp when one node that is no longer part of the tree changed as well. */
  lemma ShrinkUpAside(m: Mem, m': Mem, c: Ctx, s: Shape, n: Node)
    requires c.In? && ZipSep(c, s) && n !in Nodes(s) && n !in CtxNodes(c)
    requires Stored(m, s) && CtxStored(m, c, Height(s) + 1)
    requires SameBalance(m, m', m.Keys - {c.n, n}) && c.n in m' && m'[c.n].balance == m[c.n].balance - Sign(c.side)
    ensures Shrunk(m', c.up, Join(c.side, s, c.n, c.sib), Over(Height(s) + 1, Height(c.sib)), m[c.n].balance == 0)
  {
    var m1 := m - {n};
    KeepStored(m, m1, s);
    KeepCtxStored(m, m1, c, Height(s) + 1);
    ShrinkUp(m1, m', c, s);
  }

  lemma Case1(m: Mem, m': Mem, c: Ctx, l: Shape, n: Node)
    requires Zip(m, c, Bin(l, n, Nil)) && Case1Moves(m, m', c, l, n)
    requires Stored(m, Bin(l, n, Nil)) && CtxStored(m, c, Height(Bin(l, n, Nil)))
    ensures Zip(m', c, l)
    ensures if c.Top? then Stored(m', l) else
      Shrunk(m', c.up, Join(c.side, l, c.n, c.sib), Over(Height(l) + 1, Height(c.sib)), m[c.n].balance == 0)
  {
    Case1Linked(m, m', c, l, n);
    if c.In? {
      Case1Balance(m, m', c, l, n);
    } else {
      Case1Top(m, m', l, n);
    }
  }

  lemma Case1Top(m: Mem, m': Mem, l: Shape, n: Node)
    requires Sep(Bin(l, n, Nil)) && Stored(m, l) && Case1Moves(m, m', Top, l, n)
    ensures Stored(m', l)
  {
    StoredApart(m, m', l, {n});
  }

  /** The pointers of a node and of its neighbours, and that they are all different nodes. */
  lemma AroundNode(m: Mem, c: Ctx, l: Shape, n: Node, r: Shape)
    requires Zip(m, c, Bin(l, n, r))
    ensures n in m && m[n].parent == Owner(c) && m[n].left == Root(l) && m[n].right == Root(r)
    ensures c.In? ==> c.n in m && (m[c.n].left == n <==> c.side.Left?) && (m[c.n].right == n <==> c.side.Right?)
    ensures Neighbours(c, l, n, r) && RootSet(l) + RootSet(r) + OwnerSet(c) <= m.Keys
  {
    WhichSide(m, c, Bin(l, n, r));
    assert Linked(m, l, n) && Linked(m, r, n);
    NodesApart(c, l, n, r);
  }

  ghost predicate Neighbours(c: Ctx, l: Shape, n: Node, r: Shape) {
    && (l.Bin? ==> l.n in Nodes(l) && l.n != n && Root(r) != l.n)
    && (r.Bin? ==> r.n in Nodes(r) && r.n != n)
    && (c.In? ==> c.n in CtxNodes(c) && c.n != n && Root(l) != c.n && Root(r) != c.n)
  }

  lemma NodesApart(c: Ctx, l: Shape, n: Node, r: Shape)
    requires ZipSep(c, Bin(l, n, r))
    ensures Neighbours(c, l, n, r)
  {
    var a, b, d := Nodes(l), Nodes(r), CtxNodes(c);
    assert a !! b && a !! d && b !! d && n !in a + b + d by { SetsApart(a, n, b, d, Nodes(Bin(l, n, r))); }
    RootWithin(l);
    RootWithin(r);
    OwnerWithin(c);
    RootsApart(a, b, d, RootSet(l), RootSet(r), OwnerSet(c));
  }

  lemma SetsApart(a: set<Node>, n: Node, b: set<Node>, d: set<Node>, all: set<Node>)
    requires all == a + {n} + b && all !! d && a !! b && n !in a && n !in b
    ensures a !! b && a !! d && b !! d && n !in a + b + d
  {
  }

  lemma RootsApart(a: set<Node>, b: set<Node>, d: set<Node>, x: set<Node>, y: set<Node>, z: set<Node>)
    requires a !! b && a !! d && b !! d && x <= a && y <= b && z <= d
    ensures x !! y && x !! z && y !! z
  {
  }

  // ---------- case 2: the right child has no left child ----------

  /** Pointers after the right child `s` moved up into the place of `n`. */
  ghost predicate Case2Moves(m: Mem, m': Mem, c: Ctx, l: Shape, n: Node, s: Node) {
    && s in m && n in m && Outside(m, m', {n, s} + RootSet(l) + OwnerSet(c))
    && m'[s].parent == Owner(c) && m'[s].left == Root(l) && m'[s].right == m[s].right
    && m'[s].balance == m[n].balance - 1
    && (l.Bin? ==> l.n in m && m'[l.n] == m[l.n].(parent := s))
    && Hooked(m, m', c, s)
  }

  /** What case 2 reads before it writes, and that the nodes it writes to are all different. */
  ghost predicate Case2Ready(m: Mem, c: Ctx, l: Shape, n: Node, s: Node) {
    && {n, s} + RootSet(l) + OwnerSet(c) <= m.Keys && n != s
    && m[n].parent == Owner(c) && m[n].left == Root(l) && m[n].right == s
    && (c.In? ==> (m[c.n].left == n <==> c.side.Left?) && (m[c.n].right == n <==> c.side.Right?))
    && (l.Bin? ==> l.n != n && l.n != s) && (c.In? ==> c.n != n && c.n != s && Root(l) != c.n)
  }

  /** Clearing the node that was taken out makes no difference. */
  lemma Case2Freed(m: Mem, m1: Mem, m2: Mem, c: Ctx, l: Shape, n: Node, s: Node)
    requires Case2Ready(m, c, l, n, s) && Case2Moves(m, m1, c, l, n, s) && Outside(m1, m2, {n})
    ensures Case2Moves(m, m2, c, l, n, s)
  {
  }

  lemma Case2Linked(m: Mem, m': Mem, c: Ctx, l: Shape, n: Node, s: Node, sr: Shape)
    requires Zip(m, c, Bin(l, n, Bin(Nil, s, sr))) && Case2Moves(m, m', c, l, n, s)
    ensures Zip(m', c, Bin(l, s, sr))
  {
    var r := Bin(Nil, s, sr);
    assert Sep(r) && Linked(m, r, n) && Nodes(r) == {s} + Nodes(sr);
    RootWithin(l);
    TurnedLinked(m, m', c, n, s);
    AdoptedLinked(m, m', l, n, s);
    LinkedApart(m, m', sr, s, {n, s} + RootSet(l) + OwnerSet(c));
  }

  lemma Case2Balance(m: Mem, m': Mem, c: Ctx, l: Shape, n: Node, s: Node, sr: Shape) returns (h: int)
    requires Zip(m, c, Bin(l, n, Bin(Nil, s, sr))) && Case2Moves(m, m', c, l, n, s)
    requires Stored(m, Bin(l, n, Bin(Nil, s, sr))) && CtxStored(m, c, Height(Bin(l, n, Bin(Nil, s, sr))))
    ensures Shrunk(m', c, Bin(l, s, sr), h, c.In? && m[n].balance == 0)
  {
    var r := Bin(Nil, s, sr);
    var x := {n, s};
    assert Stored(m, r) && Height(r) == 1 + Height(sr) && Nodes(r) == {s} + Nodes(sr);
    assert Sep(r) && SameBalance(m, m', m.Keys - x);
    StoredApart(m, m', l, x);
    StoredApart(m, m', sr, x);
    KeepCtxStored(m, m', c, Height(Bin(l, n, r)));
    h := Case2Height(m', c, l, s, sr, m[n].balance);
  }

  lemma Case2Height(m: Mem, c: Ctx, l: Shape, s: Node, sr: Shape, b: int) returns (h: int)
    requires Stored(m, l) && Stored(m, sr) && s in m && m[s].balance == b - 1
    requires b == 1 + Height(sr) - Height(l) && -1 <= b <= 1
    requires CtxStored(m, c, Over(Height(l), 1 + Height(sr)))
    ensures Shrunk(m, c, Bin(l, s, sr), h, c.In? && b == 0)
  {
    // at the top there is no context to disappoint, so the source does not bother to stop there
    h := if c.Top? && b == 0 then Height(Bin(l, s, sr)) + 1 else Over(Height(l), 1 + Height(sr));
  }

  lemma Case2(m: Mem, m': Mem, c: Ctx, l: Shape, n: Node, r: Shape, s: Node, sr: Shape) returns (h: int)
    requires r == Bin(Nil, s, sr) && Zip(m, c, Bin(l, n, r)) && Case2Moves(m, m', c, l, n, s)
    requires Stored(m, Bin(l, n, r)) && CtxStored(m, c, Height(Bin(l, n, r)))
    ensures Zip(m', c, Bin(l, s, sr)) && Shrunk(m', c, Bin(l, s, sr), h, c.In? && m[n].balance == 0)
  {
    Case2Linked(m, m', c, l, n, s, sr);
    h := Case2Balance(m, m', c, l, n, s, sr);
  }

  // ---------- case 3: the in-order successor, further down, moves up ----------

  /** `cc` is reached from `base` by going left only. */
  ghost predicate LeftPath(cc: Ctx, base: Ctx) {
    cc == base || (cc.In? && cc.side.Left? && LeftPath(cc.up, base))
  }

  /** The same path hanging from `base'` instead. */
  ghost function Graft(cc: Ctx, base: Ctx, base': Ctx): Ctx
    requires LeftPath(cc, base)
  {
    if cc == base then base' else In(Graft(cc.up, base, base'), Left, cc.n, cc.sib)
  }

  /** The node just below `base` on the path. */
  ghost function First(cc: Ctx, base: Ctx): Node
    requires LeftPath(cc, base) && cc != base
  {
    if cc.up == base then cc.n else First(cc.up, base)
  }

  lemma {:induction false} GraftNodes(cc: Ctx, base: Ctx, s: Node)
    requires LeftPath(cc, base) && base.In? && CtxSep(cc) && s !in CtxNodes(cc)
    ensures var g := Graft(cc, base, base.(n := s));
      CtxSep(g) && CtxNodes(g) == CtxNodes(cc) - {base.n} + {s} && base.n in CtxNodes(cc)
  {
    if cc != base { GraftNodes(cc.up, base, s); }
  }

  lemma {:induction false} GraftOrder(cc: Ctx, base: Ctx, s: Node)
    requires LeftPath(cc, base) && base.In? && base.side.Right?
    ensures var g, p := Graft(cc, base, base.(n := s)), Before(base.up) + Inorder(base.sib);
      Before(cc) == p + [base.n] && Before(g) == p + [s] && After(g) == After(cc)
  {
    if cc != base { GraftOrder(cc.up, base, s); }
  }

  lemma {:induction false} GraftStored(m: Mem, m': Mem, cc: Ctx, base: Ctx, s: Node, h: int)
    requires LeftPath(cc, base) && base.In? && CtxSep(cc) && CtxStored(m, cc, h)
    requires SameBalance(m, m', CtxNodes(cc) - {base.n}) && base.n in m && s in m' && m'[s].balance == m[base.n].balance
    ensures CtxStored(m', Graft(cc, base, base.(n := s)), h)
    decreases cc
  {
    GraftNodesIn(cc, base);
    KeepStored(m, m', cc.sib);
    if cc == base {
      KeepCtxStored(m, m', cc.up, Over(h, Height(cc.sib)));
    } else {
      GraftStored(m, m', cc.up, base, s, Over(h, Height(cc.sib)));
    }
  }

  lemma {:induction false} GraftNodesIn(cc: Ctx, base: Ctx)
    requires LeftPath(cc, base) && base.In? && CtxSep(cc)
    ensures CtxNodes(base) <= CtxNodes(cc) && CtxSep(base)
    ensures cc != base ==> cc.n !in CtxNodes(base) && Nodes(cc.sib) !! CtxNodes(base)
    ensures cc != base ==> First(cc, base) in CtxNodes(cc) && First(cc, base) !in Nodes(cc.sib)
    ensures cc != base && cc.up != base ==> First(cc, base) != cc.n
  {
    if cc != base { GraftNodesIn(cc.up, base); }
  }

  /** Links along the path: only the first node has a new parent, only the last one a new left child. */
  lemma {:induction false} GraftLinked(m: Mem, m': Mem, cc: Ctx, base: Ctx, s: Node, hole: Node?, hole': Node?)
    requires LeftPath(cc, base) && base.In? && cc != base && CtxSep(cc) && CtxLinked(m, cc, hole)
    requires CtxLinked(m', base.(n := s), First(cc, base))
    requires SameLinks(m, m', CtxNodes(cc) - CtxNodes(base) - {First(cc, base), cc.n})
    requires {First(cc, base), cc.n} <= m.Keys * m'.Keys
    requires m'[cc.n].left == hole' && m'[cc.n].right == m[cc.n].right
    requires cc.n != First(cc, base) ==>
      && m'[cc.n].parent == m[cc.n].parent
      && m'[First(cc, base)].left == m[First(cc, base)].left && m'[First(cc, base)].right == m[First(cc, base)].right
    requires m'[First(cc, base)].parent == s
    ensures CtxLinked(m', Graft(cc, base, base.(n := s)), hole')
    decreases cc
  {
    GraftNodesIn(cc, base);
    KeepLinked(m, m', cc.sib, cc.n);
    if cc.up != base {
      GraftNodesIn(cc.up, base);
      GraftLinked(m, m', cc.up, base, s, cc.n, cc.n);
    }
  }

  /** Pointers after the successor `s`, found below `w`, took the place of `n`. */
  ghost predicate Case3Moves(m: Mem, m': Mem, c: Ctx, l: Shape, n: Node, r: Shape, w: Node, s: Node, sr: Shape) {
    && {n, w, s} <= m.Keys && r.Bin? && r.n in m && m'.Keys == m.Keys
    && Outside(m, m', {n, w, s, r.n} + RootSet(l) + RootSet(sr) + OwnerSet(c))
    && m'[s] == Cell(Owner(c), Root(l), r.n, m[n].balance)
    && (l.Bin? ==> l.n in m && m'[l.n] == m[l.n].(parent := s))
    && (sr.Bin? ==> sr.n in m && m'[sr.n] == m[sr.n].(parent := w))
    && m'[w] == m[w].(left := Root(sr), balance := m[w].balance + 1, parent := if w == r.n then s else m[w].parent)
    && (w != r.n ==> m'[r.n] == m[r.n].(parent := s))
    && Hooked(m, m', c, s)
  }

  /** The situation case 3 starts from, in both views of the same tree: around `n` and around `s`. */
  ghost predicate Case3Start(m: Mem, c: Ctx, l: Shape, n: Node, r: Shape, cc: Ctx, s: Node, sr: Shape) {
    && Zip(m, c, Bin(l, n, r)) && Zip(m, cc, Bin(Nil, s, sr)) && r.Bin?
    && LeftPath(cc, In(c, Right, n, l)) && cc != In(c, Right, n, l)
    && First(cc, In(c, Right, n, l)) == r.n
  }

  /** Which of the pieces of case 3 are apart. */
  ghost predicate Case3Pieces(c: Ctx, l: Shape, n: Node, rn: Node, cc: Ctx, s: Node, sr: Shape) {
    cc.In? &&
    var base, w := In(c, Right, n, l), cc.n;
    && w != n && s != n && s != w && s != rn && rn != n && s !in CtxNodes(cc) && w in CtxNodes(cc)
    && RootSet(sr) <= Nodes(sr) && Nodes(sr) !! CtxNodes(cc) && s !in Nodes(sr) && Sep(sr)
    && CtxNodes(base) <= CtxNodes(cc) && CtxNodes(c) + {n} + Nodes(l) == CtxNodes(base)
    && w !in CtxNodes(base) && rn !in CtxNodes(base) && rn in CtxNodes(cc)
    && OwnerSet(c) <= CtxNodes(c) && RootSet(l) <= Nodes(l)
    && n !in Nodes(l) && n !in CtxNodes(c) && Nodes(l) !! CtxNodes(c) && Sep(l)
  }

  lemma Case3Apart(c: Ctx, l: Shape, n: Node, rn: Node, cc: Ctx, s: Node, sr: Shape)
    requires LeftPath(cc, In(c, Right, n, l)) && cc != In(c, Right, n, l) && First(cc, In(c, Right, n, l)) == rn
    requires ZipSep(cc, Bin(Nil, s, sr))
    ensures Case3Pieces(c, l, n, rn, cc, s, sr)
  {
    var base := In(c, Right, n, l);
    GraftNodesIn(cc, base);
    FirstOutside(cc, base);
    RootWithin(sr);
    RootWithin(l);
    assert s in Nodes(Bin(Nil, s, sr)) && Nodes(sr) <= Nodes(Bin(Nil, s, sr)) && Sep(sr) && s !in Nodes(sr);
    assert CtxNodes(base) == CtxNodes(c) + {n} + Nodes(l);
  }

  lemma {:induction false} FirstOutside(cc: Ctx, base: Ctx)
    requires LeftPath(cc, base) && base.In? && cc != base && CtxSep(cc)
    ensures First(cc, base) !in CtxNodes(base)
    decreases cc
  {
    GraftNodesIn(cc, base);
    if cc.up != base { FirstOutside(cc.up, base); }
  }

  lemma Case3Base(m: Mem, m': Mem, c: Ctx, l: Shape, n: Node, r: Shape, cc: Ctx, s: Node, sr: Shape)
    requires Case3Start(m, c, l, n, r, cc, s, sr) && Case3Moves(m, m', c, l, n, r, cc.n, s, sr)
    ensures CtxLinked(m', In(c, Right, s, l), r.n)
  {
    Case3Apart(c, l, n, r.n, cc, s, sr);
    TurnedLinked(m, m', c, n, s);
    AdoptedLinked(m, m', l, n, s);
  }

  lemma Case3Linked(m: Mem, m': Mem, c: Ctx, l: Shape, n: Node, r: Shape, cc: Ctx, s: Node, sr: Shape)
    requires Case3Start(m, c, l, n, r, cc, s, sr) && Case3Moves(m, m', c, l, n, r, cc.n, s, sr)
    ensures Zip(m', Graft(cc, In(c, Right, n, l), In(c, Right, s, l)), sr)
  {
    var base := In(c, Right, n, l);
    Case3Base(m, m', c, l, n, r, cc, s, sr);
    Case3Apart(c, l, n, r.n, cc, s, sr);
    GraftNodes(cc, base, s);
    GraftLinked(m, m', cc, base, s, s, Root(sr));
    AdoptedLinked(m, m', sr, s, cc.n);
  }

  lemma Case3Balance(m: Mem, m': Mem, c: Ctx, l: Shape, n: Node, r: Shape, cc: Ctx, s: Node, sr: Shape)
    requires Case3Start(m, c, l, n, r, cc, s, sr) && Case3Moves(m, m', c, l, n, r, cc.n, s, sr)
    requires Stored(m, Bin(Nil, s, sr)) && CtxStored(m, cc, Height(Bin(Nil, s, sr)))
    ensures var g, w := Graft(cc, In(c, Right, n, l), In(c, Right, s, l)), cc.n;
      && g == In(g.up, Left, w, cc.sib)
      && Shrunk(m', g.up, Join(Left, sr, w, cc.sib), Over(Height(sr) + 1, Height(cc.sib)), m[w].balance == 0)
  {
    var base, w := In(c, Right, n, l), cc.n;
    var g, m1 := Graft(cc, base, base.(n := s)), m'[w := m'[w].(balance := m[w].balance)];
    Case3Apart(c, l, n, r.n, cc, s, sr);
    Case3Balances(m, m', m1, c, l, n, r, w, s, sr);
    assert Height(Bin(Nil, s, sr)) == Height(sr) + 1;
    GraftStored(m, m1, cc, base, s, Height(sr) + 1);
    KeepStored(m, m1, sr);
    GraftNodes(cc, base, s);
    ShrinkUp(m1, m', g, sr);
  }

  lemma Case3(m: Mem, m': Mem, c: Ctx, l: Shape, n: Node, r: Shape, cc: Ctx, s: Node, sr: Shape)
    requires Case3Start(m, c, l, n, r, cc, s, sr) && Case3Moves(m, m', c, l, n, r, cc.n, s, sr)
    requires Stored(m, Bin(Nil, s, sr)) && CtxStored(m, cc, Height(Bin(Nil, s, sr)))
    ensures var g, w := Graft(cc, In(c, Right, n, l), In(c, Right, s, l)), cc.n;
      && g == In(g.up, Left, w, cc.sib) && Zip(m', g, sr)
      && Shrunk(m', g.up, Join(Left, sr, w, cc.sib), Over(Height(sr) + 1, Height(cc.sib)), m[w].balance == 0)
  {
    Case3Linked(m, m', c, l, n, r, cc, s, sr);
    Case3Balance(m, m', c, l, n, r, cc, s, sr);
  }

  /** What case 3 reads before it writes, and that the nodes it writes to are all different. */
  ghost predicate Case3Ready(m: Mem, c: Ctx, l: Shape, n: Node, r: Shape, w: Node, s: Node, sr: Shape) {
    && r.Bin? && {n, w, s, r.n} + RootSet(l) + OwnerSet(c) + RootSet(sr) <= m.Keys
    && m[n].parent == Owner(c) && m[n].left == Root(l) && m[n].right == r.n
    && m[w].left == s && m[s].right == Root(sr)
    && (c.In? ==> (m[c.n].left == n <==> c.side.Left?) && (m[c.n].right == n <==> c.side.Right?))
    && n != w && n != s && n != r.n && s != w && s != r.n
    && (l.Bin? ==> l.n != n && l.n != w && l.n != s && l.n != r.n)
    && (c.In? ==> c.n != n && c.n != w && c.n != s && c.n != r.n && c.n != Root(l))
    && (sr.Bin? ==> sr.n != n && sr.n != w && sr.n != s && sr.n != r.n && sr.n != Root(l) && sr.n != Owner(c))
  }

  /** Clearing the node that was taken out makes no difference. */
  lemma Case3Freed(m: Mem, m1: Mem, m2: Mem, c: Ctx, l: Shape, n: Node, r: Shape, w: Node, s: Node, sr: Shape)
    requires Case3Ready(m, c, l, n, r, w, s, sr) && Case3Moves(m, m1, c, l, n, r, w, s, sr) && Outside(m1, m2, {n})
    ensures Case3Moves(m, m2, c, l, n, r, w, s, sr)
  {
  }

  lemma Case3Around(m: Mem, c: Ctx, l: Shape, n: Node, r: Shape, cc: Ctx, s: Node, sr: Shape)
    requires Case3Start(m, c, l, n, r, cc, s, sr)
    ensures Case3Ready(m, c, l, n, r, cc.n, s, sr)
  {
    AroundNode(m, c, l, n, r);
    AroundNode(m, cc, Nil, s, sr);
    Case3Apart(c, l, n, r.n, cc, s, sr);
    OwnerWithin(c);
  }

  lemma Case3Balances(m: Mem, m': Mem, m1: Mem, c: Ctx, l: Shape, n: Node, r: Shape, w: Node, s: Node, sr: Shape)
    requires Case3Moves(m, m', c, l, n, r, w, s, sr) && w != s && w != n && s != n
    requires m1 == m'[w := m'[w].(balance := m[w].balance)]
    ensures SameBalance(m, m1, m.Keys - {n, s}) && m1[s].balance == m[n].balance
    ensures SameBalance(m1, m', m1.Keys - {w}) && m'[w].balance == m1[w].balance + 1
  {
  }
}
