/**
 * What a rotation does to a tilted subtree `s` in its context `c`, proved once for both sides:
 * the hole then holds `t`, with the same nodes in the same order, links and stored balances right
 * again, and the height as stated. Left-left and right-right are the two sides of the single
 * rotation, left-right and right-left those of the double one.
 */
module AvlRotation {
  import opened AvlShape

  /** The root of `s` stores its true balance, which may be as far out as `limit`; below it all is well. */
  ghost predicate Tilted(m: Mem, s: Shape, limit: int) {
    && s.Bin? && Stored(m, s.l) && Stored(m, s.r)
    && s.n in m && m[s.n].balance == Height(s.r) - Height(s.l) && -limit <= m[s.n].balance <= limit
  }

  /** The taller child of a node that is out of balance by two. */
  ghost function Heavy(m: Mem, s: Shape): Shape
    requires Tilted(m, s, 2)
  {
    if m[s.n].balance == -2 then s.l else s.r
  }

  /** A subtree given to another parent `q`, which only the parent field of its root records. */
  ghost predicate Adopted(m: Mem, m': Mem, s: Shape, q: Node?) {
    s.Bin? ==>
      && s.n in m && s.n in m' && m'[s.n].SameLinks(m[s.n].(parent := q))
      && SameLinks(m, m', Nodes(s) - {s.n})
  }

  lemma AdoptedLinked(m: Mem, m': Mem, s: Shape, p: Node?, q: Node?)
    requires Sep(s) && Linked(m, s, p) && Adopted(m, m', s, q)
    ensures Linked(m', s, q)
  {
    if s.Bin? {
      KeepLinked(m, m', s.l, s.n);
      KeepLinked(m, m', s.r, s.n);
    }
  }

  /** The owner of the hole of `c` now has `to` as that child. */
  ghost predicate Turned(m: Mem, m': Mem, c: Ctx, to: Node?) {
    c.In? ==>
      && c.n in m && c.n in m' && m'[c.n].parent == m[c.n].parent
      && m'[c.n].Child(c.side) == to && m'[c.n].Child(Other(c.side)) == m[c.n].Child(Other(c.side))
      && SameLinks(m, m', CtxNodes(c) - {c.n})
  }

  lemma TurnedLinked(m: Mem, m': Mem, c: Ctx, from: Node?, to: Node?)
    requires CtxSep(c) && CtxLinked(m, c, from) && Turned(m, m', c, to)
    ensures CtxLinked(m', c, to)
  {
    if c.In? {
      KeepLinked(m, m', c.sib, c.n);
      KeepCtxLinked(m, m', c.up, c.n);
    }
  }

  /** What a rotation promises: the hole of `c` now holds `t`, nothing else changed but the owner's pointer. */
  ghost predicate Rotated(m: Mem, m': Mem, c: Ctx, s: Shape, t: Shape) {
    && m'.Keys == m.Keys
    && t.Bin? && Zip(m', c, t) && Stored(m', t)
    && Nodes(t) == Nodes(s) && Inorder(t) == Inorder(s)
    && SameBalance(m, m', m.Keys - Nodes(s))
    && SameLinks(m, m', m.Keys - Nodes(s) - OwnerSet(c))
  }

  ghost function RootSet(s: Shape): set<Node> { if s.Bin? then {s.n} else {} }

  ghost predicate Outside(m: Mem, m': Mem, x: set<Node>) {
    m'.Keys == m.Keys && forall n :: n in m && n !in x ==> m'[n] == m[n]
  }

  /** The owner of the hole now points to `to` on that side. */
  ghost predicate Hooked(m: Mem, m': Mem, c: Ctx, to: Node) {
    c.In? ==>
      && c.n in m && c.n in m'
      && m'[c.n] == if c.side.Left? then m[c.n].(left := to) else m[c.n].(right := to)
  }

  // ---------- single rotation ----------

  /** `a` over `b` on `side`: bl is the outer and br the inner subtree of b, ar the other subtree of a. */
  ghost function Single(side: Side, bl: Shape, b: Node, br: Shape, a: Node, ar: Shape): Shape {
    Join(side, Join(side, bl, b, br), a, ar)
  }

  ghost function SingleDone(side: Side, bl: Shape, b: Node, br: Shape, a: Node, ar: Shape): Shape {
    Join(side, bl, b, Join(side, br, a, ar))
  }

  lemma SingleInorder(side: Side, bl: Shape, b: Node, br: Shape, a: Node, ar: Shape)
    ensures var s, t := Single(side, bl, b, br, a, ar), SingleDone(side, bl, b, br, a, ar);
      Inorder(t) == Inorder(s) && Nodes(t) == Nodes(s) && (Sep(s) ==> Sep(t))
  {
    var l, x := Join(side, bl, b, br), Join(side, br, a, ar);
    var s, t := Join(side, l, a, ar), Join(side, bl, b, x);
    if side.Left? {
      assert Inorder(l) + [a] + Inorder(ar) == Inorder(bl) + [b] + Inorder(x);
    } else {
      assert Inorder(ar) + [a] + Inorder(l) == Inorder(x) + [b] + Inorder(bl);
    }
    assert Inorder(s) == Inorder(t);
    SameInorder(s, t);
  }

  lemma SingleParts(side: Side, bl: Shape, b: Node, br: Shape, a: Node, ar: Shape)
    requires Sep(Single(side, bl, b, br, a, ar))
    ensures a != b && Sep(bl) && Sep(br) && Sep(ar)
    ensures a !in Nodes(bl) + Nodes(br) + Nodes(ar) && b !in Nodes(bl) + Nodes(br) + Nodes(ar)
    ensures Nodes(bl) !! Nodes(br) && Nodes(bl) !! Nodes(ar) && Nodes(br) !! Nodes(ar)
  {
    var l := Join(side, bl, b, br);
    assert Sep(l) && Nodes(l) == Nodes(bl) + {b} + Nodes(br);
  }

  /** The pointer and balance changes of a single rotation, node by node. */
  ghost predicate SingleMoves(m: Mem, m': Mem, c: Ctx, side: Side, b: Node, br: Shape, a: Node) {
    && a in m && b in m && Outside(m, m', {a, b} + RootSet(br) + OwnerSet(c))
    && m'[a].parent == b && m'[a].Child(side) == Root(br) && m'[a].Child(Other(side)) == m[a].Child(Other(side))
    && m'[b].parent == Owner(c) && m'[b].Child(side) == m[b].Child(side) && m'[b].Child(Other(side)) == a
    && (br.Bin? ==> br.n in m && m'[br.n] == m[br.n].(parent := a))
    && Hooked(m, m', c, b)
    && if m[b].balance == 0 then m'[a].balance == Sign(side) && m'[b].balance == -Sign(side)
       else m'[a].balance == 0 && m'[b].balance == 0
  }

  /** What can be read off the nodes before a single rotation. */
  lemma SingleStart(m: Mem, c: Ctx, side: Side, bl: Shape, b: Node, br: Shape, a: Node, ar: Shape)
    requires Zip(m, c, Single(side, bl, b, br, a, ar))
    ensures a != b && {a, b} + RootSet(br) <= Nodes(Single(side, bl, b, br, a, ar)) && a in m && b in m
    ensures m[a].parent == Owner(c) && m[a].Child(side) == b && m[b].Child(Other(side)) == Root(br)
    ensures br.Bin? ==> br.n in m && br.n != a && br.n != b
    ensures c.In? ==> c.n != a && c.n != b && Root(br) != c.n && c.n in m
    ensures c.In? ==> m[c.n].Child(c.side) == a && m[c.n].Child(Other(c.side)) != a
  {
    var l := Join(side, bl, b, br);
    SingleParts(side, bl, b, br, a, ar);
    assert Linked(m, l, a) && b in Nodes(l) && Nodes(br) <= Nodes(l) <= Nodes(Single(side, bl, b, br, a, ar));
    assert Linked(m, br, b);
    if br.Bin? { assert br.n in Nodes(br); }
    if c.In? && c.sib.Bin? { assert c.sib.n in Nodes(c.sib); }
  }

  ghost function Sign(side: Side): int { if side.Left? then -1 else 1 }

  lemma SingleSep(side: Side, bl: Shape, b: Node, br: Shape, a: Node, ar: Shape)
    requires Sep(Single(side, bl, b, br, a, ar))
    ensures Sep(SingleDone(side, bl, b, br, a, ar))
    ensures Nodes(SingleDone(side, bl, b, br, a, ar)) == Nodes(Single(side, bl, b, br, a, ar))
  {
    SingleInorder(side, bl, b, br, a, ar);
  }

  lemma SingleLinks(m: Mem, m': Mem, c: Ctx, side: Side, bl: Shape, b: Node, br: Shape, a: Node, ar: Shape)
    requires Zip(m, c, Single(side, bl, b, br, a, ar)) && m'.Keys == m.Keys && a in m && b in m
    requires SameLinks(m, m', m.Keys - {a, b} - (if br.Bin? then {br.n} else {}) - OwnerSet(c))
    requires Adopted(m, m', br, a) && Turned(m, m', c, b)
    requires m'[a].parent == b && m'[a].Child(side) == Root(br) && m'[a].Child(Other(side)) == m[a].Child(Other(side))
    requires m'[b].parent == Owner(c) && m'[b].Child(side) == m[b].Child(side) && m'[b].Child(Other(side)) == a
    ensures Zip(m', c, SingleDone(side, bl, b, br, a, ar))
  {
    SingleSep(side, bl, b, br, a, ar);
    SinglePieces(m, m', c, side, bl, b, br, a, ar);
    TurnedLinked(m, m', c, a, b);
  }

  lemma SinglePieces(m: Mem, m': Mem, c: Ctx, side: Side, bl: Shape, b: Node, br: Shape, a: Node, ar: Shape)
    requires Zip(m, c, Single(side, bl, b, br, a, ar)) && m'.Keys == m.Keys && a in m && b in m
    requires SameLinks(m, m', m.Keys - {a, b} - (if br.Bin? then {br.n} else {}) - OwnerSet(c)) && Adopted(m, m', br, a)
    requires m'[a].parent == b && m'[a].Child(side) == Root(br) && m'[a].Child(Other(side)) == m[a].Child(Other(side))
    requires m'[b].parent == Owner(c) && m'[b].Child(side) == m[b].Child(side) && m'[b].Child(Other(side)) == a
    ensures Linked(m', SingleDone(side, bl, b, br, a, ar), Owner(c))
  {
    var l, x := Join(side, bl, b, br), Join(side, br, a, ar);
    SingleParts(side, bl, b, br, a, ar);
    assert Linked(m, l, a) && Nodes(l) == Nodes(bl) + {b} + Nodes(br);
    KeepLinked(m, m', bl, b);
    AdoptedLinked(m, m', br, b, a);
    KeepLinked(m, m', ar, a);
    assert Linked(m', x, b);
  }

  lemma SingleStored(m: Mem, m': Mem, side: Side, bl: Shape, b: Node, br: Shape, a: Node, ar: Shape)
    requires a in m && b in m && a in m' && b in m' && SameBalance(m, m', m.Keys - {a, b})
    requires Sep(Single(side, bl, b, br, a, ar)) && Tilted(m, Single(side, bl, b, br, a, ar), 2)
    requires m[a].balance == 2 * Sign(side) && (m[b].balance == 0 || m[b].balance == Sign(side))
    requires if m[b].balance == 0 then m'[a].balance == Sign(side) && m'[b].balance == -Sign(side)
             else m'[a].balance == 0 && m'[b].balance == 0
    ensures Stored(m', SingleDone(side, bl, b, br, a, ar))
    ensures Height(SingleDone(side, bl, b, br, a, ar))
         == Height(Single(side, bl, b, br, a, ar)) - (if m[b].balance == 0 then 0 else 1)
  {
    hide Stored, Height, Sep;
    var l, x := Join(side, bl, b, br), Join(side, br, a, ar);
    SingleParts(side, bl, b, br, a, ar);
    assert Stored(m, l) && Stored(m, ar) && m[a].balance == Lean(side, Height(l), Height(ar));
    StoredJoin(m, side, bl, b, br);
    StoredJoin(m, side, l, a, ar);
    KeepStored(m, m', bl); KeepStored(m, m', br); KeepStored(m, m', ar);
    StoredJoin(m', side, br, a, ar);
    StoredJoin(m', side, bl, b, x);
  }

  lemma SingleFrame(m: Mem, m': Mem, c: Ctx, side: Side, bl: Shape, b: Node, br: Shape, a: Node, ar: Shape)
    requires Zip(m, c, Single(side, bl, b, br, a, ar)) && SingleMoves(m, m', c, side, b, br, a)
    ensures Adopted(m, m', br, a) && Turned(m, m', c, b)
    ensures SameLinks(m, m', m.Keys - Nodes(Single(side, bl, b, br, a, ar)) - OwnerSet(c))
    ensures SameBalance(m, m', m.Keys - {a, b}) && SameBalance(m, m', m.Keys - Nodes(Single(side, bl, b, br, a, ar)))
  {
    SingleStart(m, c, side, bl, b, br, a, ar);
    SingleParts(side, bl, b, br, a, ar);
    assert c.In? ==> CtxNodes(c) - {c.n} !! {a, b} + RootSet(br) + OwnerSet(c);
    assert br.Bin? ==> Nodes(br) - {br.n} !! {a, b} + RootSet(br) + OwnerSet(c);
  }

  lemma SingleRotation(m: Mem, m': Mem, c: Ctx, side: Side, bl: Shape, b: Node, br: Shape, a: Node, ar: Shape)
    requires Zip(m, c, Single(side, bl, b, br, a, ar)) && SingleMoves(m, m', c, side, b, br, a)
    requires Tilted(m, Single(side, bl, b, br, a, ar), 2)
    requires m[a].balance == 2 * Sign(side) && (m[b].balance == 0 || m[b].balance == Sign(side))
    ensures Rotated(m, m', c, Single(side, bl, b, br, a, ar), SingleDone(side, bl, b, br, a, ar))
    ensures Height(SingleDone(side, bl, b, br, a, ar))
         == Height(Single(side, bl, b, br, a, ar)) - (if m[b].balance == 0 then 0 else 1)
  {
    SingleFrame(m, m', c, side, bl, b, br, a, ar);
    SingleLinks(m, m', c, side, bl, b, br, a, ar);
    SingleStored(m, m', side, bl, b, br, a, ar);
    SingleInorder(side, bl, b, br, a, ar);
  }

  // ---------- double rotation ----------

  /** `a` over `b` on `side` over `k` on the inner side; ko and ki are k's subtrees towards b and a. */
  ghost function Double(side: Side, bl: Shape, b: Node, ko: Shape, k: Node, ki: Shape, a: Node, ar: Shape): Shape {
    Single(side, bl, b, Join(side, ko, k, ki), a, ar)
  }

  ghost function DoubleDone(side: Side, bl: Shape, b: Node, ko: Shape, k: Node, ki: Shape, a: Node, ar: Shape): Shape {
    Join(side, Join(side, bl, b, ko), k, Join(side, ki, a, ar))
  }

  lemma DoubleInorder(side: Side, bl: Shape, b: Node, ko: Shape, k: Node, ki: Shape, a: Node, ar: Shape)
    ensures var s, t := Double(side, bl, b, ko, k, ki, a, ar), DoubleDone(side, bl, b, ko, k, ki, a, ar);
      Inorder(t) == Inorder(s) && Nodes(t) == Nodes(s) && (Sep(s) ==> Sep(t))
  {
    var x := Join(side, bl, b, ko);
    hide Sep;
    SingleInorder(Other(side), ki, k, ko, b, bl);  // first b with k ...
    assert Single(Other(side), ki, k, ko, b, bl) == Join(side, bl, b, Join(side, ko, k, ki));
    assert SingleDone(Other(side), ki, k, ko, b, bl) == Join(side, x, k, ki);
    SingleInorder(side, x, k, ki, a, ar);          // ... then a with k
    SameInorder(Double(side, bl, b, ko, k, ki, a, ar), DoubleDone(side, bl, b, ko, k, ki, a, ar));
  }

  lemma DoubleSep(side: Side, bl: Shape, b: Node, ko: Shape, k: Node, ki: Shape, a: Node, ar: Shape)
    requires Sep(Double(side, bl, b, ko, k, ki, a, ar))
    ensures Sep(DoubleDone(side, bl, b, ko, k, ki, a, ar))
    ensures Nodes(DoubleDone(side, bl, b, ko, k, ki, a, ar)) == Nodes(Double(side, bl, b, ko, k, ki, a, ar))
  {
    DoubleInorder(side, bl, b, ko, k, ki, a, ar);
  }

  /** The four subtrees of a double rotation are apart from each other and from the three nodes. */
  ghost predicate Pieces(bl: Shape, b: Node, ko: Shape, k: Node, ki: Shape, a: Node, ar: Shape) {
    && a != b && a != k && b != k && Sep(bl) && Sep(ko) && Sep(ki) && Sep(ar)
    && {a, b, k} !! Nodes(bl) && {a, b, k} !! Nodes(ko) && {a, b, k} !! Nodes(ki) && {a, b, k} !! Nodes(ar)
    && Nodes(bl) !! Nodes(ko) && Nodes(bl) !! Nodes(ki) && Nodes(bl) !! Nodes(ar)
    && Nodes(ko) !! Nodes(ki) && Nodes(ko) !! Nodes(ar) && Nodes(ki) !! Nodes(ar)
  }

  lemma DoubleParts(side: Side, bl: Shape, b: Node, ko: Shape, k: Node, ki: Shape, a: Node, ar: Shape)
    requires Sep(Double(side, bl, b, ko, k, ki, a, ar))
    ensures Pieces(bl, b, ko, k, ki, a, ar)
    ensures forall t :: t in {bl, ko, ki, ar} ==> Nodes(t) !! {a, b, k}
  {
    var z := Join(side, ko, k, ki);
    SingleParts(side, bl, b, z, a, ar);
    assert Nodes(z) == Nodes(ko) + {k} + Nodes(ki);
  }

  lemma LinkedJoin(m: Mem, side: Side, s: Shape, n: Node, sib: Shape, p: Node?)
    ensures Linked(m, Join(side, s, n, sib), p) <==>
      && n in m && m[n].parent == p && m[n].Child(side) == Root(s) && m[n].Child(Other(side)) == Root(sib)
      && Linked(m, s, n) && Linked(m, sib, n)
  {
  }

  lemma DoublePieces(m: Mem, m': Mem, c: Ctx, side: Side,
                     bl: Shape, b: Node, ko: Shape, k: Node, ki: Shape, a: Node, ar: Shape)
    requires Zip(m, c, Double(side, bl, b, ko, k, ki, a, ar)) && m'.Keys == m.Keys && a in m && b in m && k in m
    requires SameLinks(m, m', m.Keys - {a, b, k} - RootSet(ko) - RootSet(ki) - OwnerSet(c))
    requires Adopted(m, m', ko, b) && Adopted(m, m', ki, a)
    requires m'[a].parent == k && m'[a].Child(side) == Root(ki) && m'[a].Child(Other(side)) == m[a].Child(Other(side))
    requires m'[b].parent == k && m'[b].Child(side) == m[b].Child(side) && m'[b].Child(Other(side)) == Root(ko)
    requires m'[k].parent == Owner(c) && m'[k].Child(side) == b && m'[k].Child(Other(side)) == a
    ensures Linked(m', DoubleDone(side, bl, b, ko, k, ki, a, ar), Owner(c))
  {
    hide Linked, Sep;
    var z := Join(side, ko, k, ki);
    var l := Join(side, bl, b, z);
    DoubleParts(side, bl, b, ko, k, ki, a, ar);
    assert Nodes(z) == Nodes(ko) + {k} + Nodes(ki) && Nodes(l) == Nodes(bl) + {b} + Nodes(z);
    LinkedJoin(m, side, l, a, ar, Owner(c));
    LinkedJoin(m, side, bl, b, z, a);
    LinkedJoin(m, side, ko, k, ki, b);
    KeepLinked(m, m', bl, b);
    AdoptedLinked(m, m', ko, k, b);
    AdoptedLinked(m, m', ki, k, a);
    KeepLinked(m, m', ar, a);
    LinkedJoin(m', side, bl, b, ko, k);
    LinkedJoin(m', side, ki, a, ar, k);
    LinkedJoin(m', side, Join(side, bl, b, ko), k, Join(side, ki, a, ar), Owner(c));
  }

  lemma DoubleLinks(m: Mem, m': Mem, c: Ctx, side: Side,
                    bl: Shape, b: Node, ko: Shape, k: Node, ki: Shape, a: Node, ar: Shape)
    requires Zip(m, c, Double(side, bl, b, ko, k, ki, a, ar)) && m'.Keys == m.Keys && a in m && b in m && k in m
    requires SameLinks(m, m', m.Keys - {a, b, k} - RootSet(ko) - RootSet(ki) - OwnerSet(c))
    requires Adopted(m, m', ko, b) && Adopted(m, m', ki, a) && Turned(m, m', c, k)
    requires m'[a].parent == k && m'[a].Child(side) == Root(ki) && m'[a].Child(Other(side)) == m[a].Child(Other(side))
    requires m'[b].parent == k && m'[b].Child(side) == m[b].Child(side) && m'[b].Child(Other(side)) == Root(ko)
    requires m'[k].parent == Owner(c) && m'[k].Child(side) == b && m'[k].Child(Other(side)) == a
    ensures Zip(m', c, DoubleDone(side, bl, b, ko, k, ki, a, ar))
  {
    DoubleSep(side, bl, b, ko, k, ki, a, ar);
    DoublePieces(m, m', c, side, bl, b, ko, k, ki, a, ar);
    TurnedLinked(m, m', c, a, k);
  }

  lemma DoubleStored(m: Mem, m': Mem, side: Side,
                     bl: Shape, b: Node, ko: Shape, k: Node, ki: Shape, a: Node, ar: Shape)
    requires {a, b, k} <= m.Keys && m'.Keys == m.Keys && SameBalance(m, m', m.Keys - {a, b, k})
    requires Sep(Double(side, bl, b, ko, k, ki, a, ar)) && Tilted(m, Double(side, bl, b, ko, k, ki, a, ar), 2)
    requires m[a].balance == 2 * Sign(side) && m[b].balance == -Sign(side)
    requires m'[k].balance == 0
    requires m'[a].balance == (if m[k].balance == Sign(side) then -Sign(side) else 0)
    requires m'[b].balance == (if m[k].balance == -Sign(side) then Sign(side) else 0)
    ensures Stored(m', DoubleDone(side, bl, b, ko, k, ki, a, ar))
    ensures Height(DoubleDone(side, bl, b, ko, k, ki, a, ar)) == Height(Double(side, bl, b, ko, k, ki, a, ar)) - 1
  {
    hide Stored, Height, Sep, Tilted, Pieces;
    DoubleFlat(m, side, bl, b, ko, k, ki, a, ar);
    DoubleHeights(side, Height(bl), Height(ko), Height(ki), Height(ar));
    DoubleParts(side, bl, b, ko, k, ki, a, ar);
    AllStoredApart(m, m', {bl, ko, ki, ar}, {a, b, k});
    DoubleJoin(m', side, bl, b, ko, k, ki, a, ar);
  }

  lemma DoubleJoin(m: Mem, side: Side, bl: Shape, b: Node, ko: Shape, k: Node, ki: Shape, a: Node, ar: Shape)
    requires {a, b, k} <= m.Keys && forall t :: t in {bl, ko, ki, ar} ==> Stored(m, t)
    requires m[b].balance == Lean(side, Height(bl), Height(ko)) && -1 <= m[b].balance <= 1
    requires m[a].balance == Lean(side, Height(ki), Height(ar)) && -1 <= m[a].balance <= 1
    requires m[k].balance == 0 == Lean(side, Over(Height(bl), Height(ko)), Over(Height(ki), Height(ar)))
    ensures Stored(m, DoubleDone(side, bl, b, ko, k, ki, a, ar))
    ensures Height(DoubleDone(side, bl, b, ko, k, ki, a, ar))
         == Over(Over(Height(bl), Height(ko)), Over(Height(ki), Height(ar)))
  {
    StoredJoin(m, side, bl, b, ko);
    StoredJoin(m, side, ki, a, ar);
    StoredJoin(m, side, Join(side, bl, b, ko), k, Join(side, ki, a, ar));
  }

  lemma DoubleFlat(m: Mem, side: Side, bl: Shape, b: Node, ko: Shape, k: Node, ki: Shape, a: Node, ar: Shape)
    requires Tilted(m, Double(side, bl, b, ko, k, ki, a, ar), 2)
    ensures {a, b, k} <= m.Keys && forall t :: t in {bl, ko, ki, ar} ==> Stored(m, t)
    ensures var hz := Over(Height(ko), Height(ki)); var hl := Over(Height(bl), hz);
      && m[k].balance == Lean(side, Height(ko), Height(ki)) && -1 <= m[k].balance <= 1
      && m[b].balance == Lean(side, Height(bl), hz)
      && m[a].balance == Lean(side, hl, Height(ar))
      && Height(Double(side, bl, b, ko, k, ki, a, ar)) == Over(hl, Height(ar))
  {
    var z := Join(side, ko, k, ki);
    assert Stored(m, Join(side, bl, b, z)) && Stored(m, ar);
    hide Stored, Height;
    StoredJoin(m, side, bl, b, z);
    StoredJoin(m, side, ko, k, ki);
  }

  lemma StoredJoin(m: Mem, side: Side, s: Shape, n: Node, sib: Shape)
    ensures Height(Join(side, s, n, sib)) == Over(Height(s), Height(sib))
    ensures Stored(m, Join(side, s, n, sib)) <==>
      && n in m && m[n].balance == Lean(side, Height(s), Height(sib)) && -1 <= m[n].balance <= 1
      && Stored(m, s) && Stored(m, sib)
  {
  }

  lemma DoubleHeights(side: Side, hb: int, ho: int, hi: int, hr: int)
    requires -1 <= Lean(side, ho, hi) <= 1
    requires Lean(side, hb, Over(ho, hi)) == -Sign(side)
    requires Lean(side, Over(hb, Over(ho, hi)), hr) == 2 * Sign(side)
    ensures Lean(side, hb, ho) == (if Lean(side, ho, hi) == -Sign(side) then Sign(side) else 0)
    ensures Lean(side, hi, hr) == (if Lean(side, ho, hi) == Sign(side) then -Sign(side) else 0)
    ensures Lean(side, Over(hb, ho), Over(hi, hr)) == 0
    ensures Over(Over(hb, ho), Over(hi, hr)) == Over(Over(hb, Over(ho, hi)), hr) - 1
  {
  }

  /** The pointer and balance changes of a double rotation, node by node. */
  ghost predicate DoubleMoves(m: Mem, m': Mem, c: Ctx, side: Side, b: Node, ko: Shape, k: Node, ki: Shape, a: Node) {
    && {a, b, k} <= m.Keys && Outside(m, m', {a, b, k} + RootSet(ko) + RootSet(ki) + OwnerSet(c))
    && m'[a].parent == k && m'[a].Child(side) == Root(ki) && m'[a].Child(Other(side)) == m[a].Child(Other(side))
    && m'[b].parent == k && m'[b].Child(side) == m[b].Child(side) && m'[b].Child(Other(side)) == Root(ko)
    && m'[k].parent == Owner(c) && m'[k].Child(side) == b && m'[k].Child(Other(side)) == a
    && (ko.Bin? ==> ko.n in m && m'[ko.n] == m[ko.n].(parent := b))
    && (ki.Bin? ==> ki.n in m && m'[ki.n] == m[ki.n].(parent := a))
    && Hooked(m, m', c, k)
    && m'[k].balance == 0
    && m'[a].balance == (if m[k].balance == Sign(side) then -Sign(side) else 0)
    && m'[b].balance == (if m[k].balance == -Sign(side) then Sign(side) else 0)
  }

  /** What a double rotation reads before it writes, and that the nodes it writes to are all different. */
  ghost predicate DoubleReady(m: Mem, c: Ctx, side: Side, b: Node, ko: Shape, k: Node, ki: Shape, a: Node) {
    && a != b && a != k && b != k && {a, b, k} <= m.Keys
    && m[a].parent == Owner(c) && m[a].Child(side) == b && m[b].Child(Other(side)) == k
    && m[k].Child(side) == Root(ko) && m[k].Child(Other(side)) == Root(ki)
    && (ko.Bin? ==> ko.n in m && ko.n != a && ko.n != b && ko.n != k && Root(ki) != ko.n)
    && (ki.Bin? ==> ki.n in m && ki.n != a && ki.n != b && ki.n != k)
    && (c.In? ==> c.n in m && c.n != a && c.n != b && c.n != k && c.n != Root(ko) && c.n != Root(ki))
    && (c.In? ==> m[c.n].Child(c.side) == a && m[c.n].Child(Other(c.side)) != a)
  }

  lemma DoubleStart(m: Mem, c: Ctx, side: Side, bl: Shape, b: Node, ko: Shape, k: Node, ki: Shape, a: Node, ar: Shape)
    requires Zip(m, c, Double(side, bl, b, ko, k, ki, a, ar))
    ensures DoubleReady(m, c, side, b, ko, k, ki, a)
  {
    SingleStart(m, c, side, bl, b, Join(side, ko, k, ki), a, ar);
    DoublePointers(m, side, bl, b, ko, k, ki, a, ar, Owner(c));
    hide Linked, CtxLinked;
    DoubleDistinct(c, side, bl, b, ko, k, ki, a, ar);
  }

  lemma DoublePointers(m: Mem, side: Side, bl: Shape, b: Node, ko: Shape, k: Node, ki: Shape, a: Node, ar: Shape,
                       p: Node?)
    requires Linked(m, Double(side, bl, b, ko, k, ki, a, ar), p)
    ensures {a, b, k} <= m.Keys && m[a].parent == p && m[a].Child(side) == b && m[b].Child(Other(side)) == k
    ensures m[k].Child(side) == Root(ko) && m[k].Child(Other(side)) == Root(ki)
    ensures (ko.Bin? ==> ko.n in m) && (ki.Bin? ==> ki.n in m)
  {
    var z := Join(side, ko, k, ki);
    var l := Join(side, bl, b, z);
    assert Linked(m, l, a);
    assert Linked(m, z, b);
    assert Linked(m, ko, k) && Linked(m, ki, k);
  }

  lemma DoubleDistinct(c: Ctx, side: Side, bl: Shape, b: Node, ko: Shape, k: Node, ki: Shape, a: Node, ar: Shape)
    requires ZipSep(c, Double(side, bl, b, ko, k, ki, a, ar))
    ensures a != b && a != k && b != k
    ensures ko.Bin? ==> ko.n != a && ko.n != b && ko.n != k && Root(ki) != ko.n
    ensures ki.Bin? ==> ki.n != a && ki.n != b && ki.n != k
    ensures c.In? ==> c.n != a && c.n != b && c.n != k && c.n != Root(ko) && c.n != Root(ki)
  {
    DoubleParts(side, bl, b, ko, k, ki, a, ar);
    DoubleKeepsApart(c, side, bl, b, ko, k, ki, a, ar);
    RootWithin(ko);
    RootWithin(ki);
    OwnerWithin(c);
    hide Sep, Nodes, CtxNodes;
  }

  lemma OwnerWithin(c: Ctx)
    ensures OwnerSet(c) <= CtxNodes(c) && (c.In? ==> c.n in CtxNodes(c))
  {
  }

  /** A child leaning inwards has a node to rotate up, with a proper balance. */
  lemma DoubleTilt(m: Mem, side: Side, s: Shape)
    requires Tilted(m, s, 2) && m[s.n].balance == 2 * Sign(side)
    requires var l := if side.Left? then s.l else s.r; l.Bin? && l.n in m && m[l.n].balance == -Sign(side)
    ensures var l := if side.Left? then s.l else s.r;
            var z := if side.Left? then l.r else l.l;
            z.Bin? && z.n in m && -1 <= m[z.n].balance <= 1
  {
    if side.Left? {
      assert Stored(m, s.l);
      assert Height(s.l.r) > Height(s.l.l) && Stored(m, s.l.r);
    } else {
      assert Stored(m, s.r);
      assert Height(s.r.l) > Height(s.r.r) && Stored(m, s.r.l);
    }
  }

  /** Which of the parts of a double rotation are apart from which. */
  ghost predicate DoubleApart(c: Ctx, ns: set<Node>, b: Node, ko: Shape, k: Node, ki: Shape, a: Node) {
    && {a, b, k} + RootSet(ki) + OwnerSet(c) !! Nodes(ko)
    && {a, b, k} + RootSet(ko) + OwnerSet(c) !! Nodes(ki)
    && {a, b, k} + RootSet(ko) + RootSet(ki) <= ns && ns !! CtxNodes(c)
  }

  lemma DoubleKeepsApart(c: Ctx, side: Side, bl: Shape, b: Node, ko: Shape, k: Node, ki: Shape, a: Node, ar: Shape)
    requires ZipSep(c, Double(side, bl, b, ko, k, ki, a, ar))
    ensures DoubleApart(c, Nodes(Double(side, bl, b, ko, k, ki, a, ar)), b, ko, k, ki, a)
  {
    DoubleParts(side, bl, b, ko, k, ki, a, ar);
    DoubleCover(side, bl, b, ko, k, ki, a, ar);
    RootWithin(ko);
    RootWithin(ki);
  }

  lemma DoubleFrame(m: Mem, m': Mem, c: Ctx, side: Side, ns: set<Node>, b: Node, ko: Shape, k: Node, ki: Shape, a: Node)
    requires DoubleApart(c, ns, b, ko, k, ki, a) && DoubleMoves(m, m', c, side, b, ko, k, ki, a)
    ensures Adopted(m, m', ko, b) && Adopted(m, m', ki, a) && Turned(m, m', c, k)
    ensures SameLinks(m, m', m.Keys - ns - OwnerSet(c))
    ensures SameBalance(m, m', m.Keys - {a, b, k}) && SameBalance(m, m', m.Keys - ns)
  {
    AdoptedByMove(m, m', ko, b, {a, b, k} + RootSet(ki) + OwnerSet(c));
    AdoptedByMove(m, m', ki, a, {a, b, k} + RootSet(ko) + OwnerSet(c));
    MovesFrame(m, m', c, ns, {a, b, k} + RootSet(ko) + RootSet(ki));
  }

  lemma AdoptedByMove(m: Mem, m': Mem, s: Shape, q: Node, x: set<Node>)
    requires Outside(m, m', x + RootSet(s)) && x !! Nodes(s)
    requires s.Bin? ==> s.n in m && m'[s.n] == m[s.n].(parent := q)
    ensures Adopted(m, m', s, q)
  {
  }

  /** A change confined to `x` and to the owner of the hole leaves the rest of the context alone. */
  lemma MovesFrame(m: Mem, m': Mem, c: Ctx, ns: set<Node>, x: set<Node>)
    requires Outside(m, m', x + OwnerSet(c)) && x <= ns && ns !! CtxNodes(c)
    ensures SameLinks(m, m', m.Keys - ns - OwnerSet(c)) && SameLinks(m, m', CtxNodes(c) - OwnerSet(c))
  {
  }

  lemma RootWithin(s: Shape)
    ensures RootSet(s) <= Nodes(s)
  {
  }

  lemma DoubleCover(side: Side, bl: Shape, b: Node, ko: Shape, k: Node, ki: Shape, a: Node, ar: Shape)
    ensures Nodes(ko) + Nodes(ki) + {a, b, k} <= Nodes(Double(side, bl, b, ko, k, ki, a, ar))
  {
    var z := Join(side, ko, k, ki);
    var l := Join(side, bl, b, z);
    assert Nodes(z) == Nodes(ko) + {k} + Nodes(ki) && Nodes(l) == Nodes(bl) + {b} + Nodes(z);
  }

  lemma DoubleRotation(m: Mem, m': Mem, c: Ctx, side: Side,
                       bl: Shape, b: Node, ko: Shape, k: Node, ki: Shape, a: Node, ar: Shape)
    requires Zip(m, c, Double(side, bl, b, ko, k, ki, a, ar)) && DoubleMoves(m, m', c, side, b, ko, k, ki, a)
    requires Tilted(m, Double(side, bl, b, ko, k, ki, a, ar), 2)
    requires m[a].balance == 2 * Sign(side) && m[b].balance == -Sign(side)
    ensures Rotated(m, m', c, Double(side, bl, b, ko, k, ki, a, ar), DoubleDone(side, bl, b, ko, k, ki, a, ar))
    ensures Height(DoubleDone(side, bl, b, ko, k, ki, a, ar)) == Height(Double(side, bl, b, ko, k, ki, a, ar)) - 1
  {
    DoubleKeepsApart(c, side, bl, b, ko, k, ki, a, ar);
    DoubleFrame(m, m', c, side, Nodes(Double(side, bl, b, ko, k, ki, a, ar)), b, ko, k, ki, a);
    DoubleLinks(m, m', c, side, bl, b, ko, k, ki, a, ar);
    DoubleStored(m, m', side, bl, b, ko, k, ki, a, ar);
    DoubleInorder(side, bl, b, ko, k, ki, a, ar);
  }
}
