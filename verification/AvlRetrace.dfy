/**
 * Steps of the insert and delete loops on the zipper, without the heap: moving the focus up,
 * accounting for a subtree that grew or shrank, and what a rotation restores.
 */
module AvlRetrace {
  import opened AvlShape
  import opened AvlRotation

  /** Moving the focus up one level does not change the tree. */
  lemma Up(m: Mem, c: Ctx, s: Shape)
    requires c.In? && Zip(m, c, s)
    ensures var t := Join(c.side, s, c.n, c.sib);
      && Zip(m, c.up, t) && Plug(c.up, t) == Plug(c, s)
      && Nodes(t) + CtxNodes(c.up) == Nodes(s) + CtxNodes(c)
  {
    var t := Join(c.side, s, c.n, c.sib);
    PlugLinked(m, c, s);
    PlugLinked(m, c.up, t);
    PlugNodes(c, s);
    PlugNodes(c.up, t);
  }

  /** Only balances changed between m and m'. */
  lemma KeepZip(m: Mem, m': Mem, c: Ctx, s: Shape)
    requires Zip(m, c, s) && SameLinks(m, m', m.Keys)
    ensures Zip(m', c, s)
  {
    KeepLinked(m, m', s, Owner(c));
    KeepCtxLinked(m, m', c, Root(s));
  }

  /** The owner tells its two children apart by comparing pointers. */
  lemma WhichSide(m: Mem, c: Ctx, s: Shape)
    requires Zip(m, c, s) && s.Bin?
    ensures s.n in m && m[s.n].parent == Owner(c)
    ensures c.In? ==> c.n in m && c.n !in Nodes(s) && (m[c.n].left == s.n <==> c.side.Left?)
                      && (m[c.n].right == s.n <==> c.side.Right?)
  {
    if c.In? && c.sib.Bin? { assert c.sib.n in Nodes(c.sib); }
  }

  /**
   * State of the delete loop: the context still believes in height `h` for the hole. With `stop` set,
   * `s` has that height; otherwise it is one lower, or as high but out of balance by two.
   */
  ghost predicate Shrunk(m: Mem, c: Ctx, s: Shape, h: int, stop: bool) {
    && Tilted(m, s, 2) && CtxStored(m, c, h)
    && (stop ==> Stored(m, s) && h == Height(s))
    && (!stop ==> h == Height(s) + (if -1 <= m[s.n].balance <= 1 then 1 else 0))
  }

  lemma JoinStored(m: Mem, m': Mem, c: Ctx, s: Shape)
    requires c.In? && ZipSep(c, s) && Stored(m, s) && Stored(m, c.sib)
    requires SameBalance(m, m', m.Keys - {c.n}) && c.n in m'
    ensures Stored(m', s) && Stored(m', c.sib)
  {
    StoredApart(m, m', s, {c.n});
    StoredApart(m, m', c.sib, {c.n});
  }

  lemma UpperStored(m: Mem, m': Mem, c: Ctx, h: int)
    requires c.In? && CtxSep(c) && CtxStored(m, c.up, h) && SameBalance(m, m', m.Keys - {c.n})
    ensures CtxStored(m', c.up, h)
  {
    KeepCtxStored(m, m', c.up, h);
  }

  /** The subtree in the hole of `c` lost one level and its owner's balance was corrected. */
  lemma ShrinkUp(m: Mem, m': Mem, c: Ctx, s: Shape)
    requires c.In? && ZipSep(c, s) && Stored(m, s) && CtxStored(m, c, Height(s) + 1)
    requires SameBalance(m, m', m.Keys - {c.n}) && c.n in m' && m'[c.n].balance == m[c.n].balance - Sign(c.side)
    ensures Shrunk(m', c.up, Join(c.side, s, c.n, c.sib), Over(Height(s) + 1, Height(c.sib)), m[c.n].balance == 0)
  {
    JoinStored(m, m', c, s);
    UpperStored(m, m', c, Over(Height(s) + 1, Height(c.sib)));
    TiltedJoin(m', c.side, s, c.n, c.sib);
  }

  /** The subtree in the hole of `c` gained one level and its owner's balance was corrected. */
  lemma GrowUp(m: Mem, m': Mem, c: Ctx, s: Shape)
    requires c.In? && ZipSep(c, s) && Stored(m, s) && CtxStored(m, c, Height(s) - 1)
    requires SameBalance(m, m', m.Keys - {c.n}) && c.n in m' && m'[c.n].balance == m[c.n].balance + Sign(c.side)
    ensures var t, h, b := Join(c.side, s, c.n, c.sib), Over(Height(s) - 1, Height(c.sib)), m'[c.n].balance;
      && Tilted(m', t, 2) && CtxStored(m', c.up, h)
      && (b == 0 ==> Stored(m', t) && Height(t) == h)
      && (b == 1 || b == -1 ==> Stored(m', t) && Height(t) == h + 1)
      && (b == 2 || b == -2 ==> Height(t) == h + 1 && Heavy(m', t) == s)
  {
    JoinStored(m, m', c, s);
    UpperStored(m, m', c, Over(Height(s) - 1, Height(c.sib)));
    TiltedJoin(m', c.side, s, c.n, c.sib);
  }

  lemma TiltedJoin(m: Mem, side: Side, s: Shape, n: Node, sib: Shape)
    requires Stored(m, s) && Stored(m, sib) && n in m
    requires m[n].balance == Lean(side, Height(s), Height(sib)) && -2 <= m[n].balance <= 2
    ensures var t := Join(side, s, n, sib);
      && Tilted(m, t, 2) && Height(t) == Over(Height(s), Height(sib)) && (-1 <= m[n].balance <= 1 ==> Stored(m, t))
  {
  }

  /** A detached node `n` is hung into an empty hole. */
  lemma Hang(m: Mem, m': Mem, c: Ctx, n: Node)
    requires c.In? && Zip(m, c, Nil) && n !in CtxNodes(c) && n in m'
    requires m'[n] == Cell(c.n, null, null, 0)
    requires SameLinks(m, m', m.Keys - {c.n, n}) && Turned(m, m', c, n)
    ensures Zip(m', c, Bin(Nil, n, Nil)) && Stored(m', Bin(Nil, n, Nil))
  {
    TurnedLinked(m, m', c, null, n);
    assert Linked(m', Bin(Nil, n, Nil), c.n);
  }

  /** A leaf hung opposite to a lone sibling evens its owner out, so the tree grows no taller. */
  lemma HangEvens(m: Mem, m': Mem, c: Ctx)
    requires c.In? && CtxSep(c) && CtxStored(m, c, 0) && m[c.n].balance == -Sign(c.side)
    requires c.n in m' && m'[c.n].balance == 0 && SameBalance(m, m', m.Keys - {c.n})
    ensures CtxStored(m', c, 1)
  {
    StoredApart(m, m', c.sib, {c.n});
    UpperStored(m, m', c, Over(0, Height(c.sib)));
  }

  /** Descending on one side keeps the zipper. */
  lemma Down(m: Mem, c: Ctx, s: Shape)
    requires s.Bin? && Zip(m, c, s) && Stored(m, s) && CtxStored(m, c, Height(s))
    ensures var l := In(c, Left, s.n, s.r);
      Zip(m, l, s.l) && Plug(l, s.l) == Plug(c, s) && Stored(m, s.l) && CtxStored(m, l, Height(s.l))
    ensures var r := In(c, Right, s.n, s.l);
      Zip(m, r, s.r) && Plug(r, s.r) == Plug(c, s) && Stored(m, s.r) && CtxStored(m, r, Height(s.r))
  {
    var l, r := In(c, Left, s.n, s.r), In(c, Right, s.n, s.l);
    PlugLinked(m, c, s); PlugLinked(m, l, s.l); PlugLinked(m, r, s.r);
    PlugStored(m, c, s); PlugStored(m, l, s.l); PlugStored(m, r, s.r);
  }

  /** A subtree that has just grown a level: a fresh leaf, or taller on one side. */
  ghost predicate Taller(m: Mem, c: Ctx, s: Shape) {
    && s.Bin? && Stored(m, s) && CtxStored(m, c, Height(s) - 1)
    && (Height(s) == 1 || m[s.n].balance != 0)
  }

  ghost predicate Grown(m: Mem, c: Ctx, s: Shape) {
    Zip(m, c, s) && Taller(m, c, s)
  }

  /** The parent of a grown subtree after its balance was corrected: even, taller itself, or out of balance. */
  ghost predicate Bumped(m: Mem, c: Ctx, t: Shape) {
    && Tilted(m, t, 2)
    && match m[t.n].balance
       case 0 => Stored(m, t) && CtxStored(m, c, Height(t))
       case 1 => Taller(m, c, t)
       case -1 => Taller(m, c, t)
       case _ =>
         var h := Heavy(m, t);
         h.Bin? && h.n in m && m[h.n].balance != 0 && CtxStored(m, c, Height(t) - 1)
  }

  lemma GrowStep(m: Mem, m': Mem, c: Ctx, s: Shape)
    requires Grown(m, c, s) && c.In? && Outside(m, m', {c.n})
    requires m'[c.n] == m[c.n].(balance := m[c.n].balance + Sign(c.side))
    ensures var t := Join(c.side, s, c.n, c.sib);
      && Plug(c.up, t) == Plug(c, s) && CtxNodes(c.up) + Nodes(t) == CtxNodes(c) + Nodes(s)
      && Zip(m', c.up, t) && Bumped(m', c.up, t)
  {
    KeepZip(m, m', c, s);
    Up(m', c, s);
    GrowBalance(m, m', c, s);
  }

  lemma GrowBalance(m: Mem, m': Mem, c: Ctx, s: Shape)
    requires ZipSep(c, s) && Taller(m, c, s) && c.In? && Outside(m, m', {c.n})
    requires m'[c.n] == m[c.n].(balance := m[c.n].balance + Sign(c.side))
    ensures Bumped(m', c.up, Join(c.side, s, c.n, c.sib))
  {
    GrowUp(m, m', c, s);
    LeafLean(c.side, Height(s), Height(c.sib));
  }

  /** Above a leaf no node can get out of balance by two. */
  lemma LeafLean(side: Side, h: int, k: int)
    requires k >= 0
    ensures h == 1 ==> Lean(side, h, k) != 2 * Sign(side)
  {
  }

  /** Rotating the subtree in focus leaves its context and the order of the nodes alone. */
  lemma AfterRotation(m: Mem, m': Mem, c: Ctx, s: Shape, t: Shape, h: int)
    requires Zip(m, c, s) && Rotated(m, m', c, s, t) && CtxStored(m, c, h)
    ensures CtxStored(m', c, h)
    ensures Inorder(Plug(c, t)) == Inorder(Plug(c, s)) && CtxNodes(c) + Nodes(t) == CtxNodes(c) + Nodes(s)
  {
    assert SameBalance(m, m', CtxNodes(c));
    KeepCtxStored(m, m', c, h);
    PlugInorder(c, t);
    PlugInorder(c, s);
  }
}
