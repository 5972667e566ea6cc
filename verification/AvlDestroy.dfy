/** destroy_complex_avltree: freeing a whole tree without a stack, by cutting off leaves and climbing back. */
module AvlDestroy {
  import opened AvlShape
  import opened AvlRotation
  import opened AvlRetrace
  import opened AvlFill

  /** Children before their parent. */
  ghost function Postorder(s: Shape): seq<Node> {
    if s.Nil? then [] else Postorder(s.l) + Postorder(s.r) + [s.n]
  }

  /** What is freed after the subtree in the hole, if left subtrees are always freed before right ones. */
  ghost function Later(c: Ctx): seq<Node> {
    if c.Top? then [] else (if c.side.Left? then Postorder(c.sib) else []) + [c.n] + Later(c.up)
  }

  /** Going right means that the left side is gone. */
  ghost predicate LeftGone(c: Ctx) {
    c.In? ==> (c.side.Right? ==> c.sib.Nil?) && LeftGone(c.up)
  }

  ghost function Todo(c: Ctx, s: Shape): seq<Node> {
    Postorder(s) + Later(c)
  }

  lemma TodoLeft(c: Ctx, s: Shape)
    requires s.Bin?
    ensures Todo(In(c, Left, s.n, s.r), s.l) == Todo(c, s)
  {
    var x, y := Postorder(s.l), Postorder(s.r);
    assert x + (y + [s.n] + Later(c)) == x + y + [s.n] + Later(c);
  }

  lemma TodoRight(c: Ctx, s: Shape)
    requires s.Bin? && s.l.Nil?
    ensures Todo(In(c, Right, s.n, Nil), s.r) == Todo(c, s)
  {
    var y := Postorder(s.r);
    assert Postorder(s) == y + [s.n] && Later(In(c, Right, s.n, Nil)) == [s.n] + Later(c);
  }

  lemma TodoLeaf(c: Ctx, n: Node)
    ensures Todo(c, Bin(Nil, n, Nil)) == [n] + Later(c)
    ensures c.In? && LeftGone(c) ==> Later(c) == Todo(c.up, Join(c.side, Nil, c.n, c.sib))
  {
    assert Postorder(Bin(Nil, n, Nil)) == [n];
    if c.In? && LeftGone(c) {
      var t := Join(c.side, Nil, c.n, c.sib);
      assert Postorder(t) == (if c.side.Left? then Postorder(c.sib) else []) + [c.n];
    }
  }

  /** The callback calls for a sequence of nodes carrying the given payloads. */
  ghost function CallsOf(q: seq<Node>, data: map<Node, Payload>, callback: bool): Freed
    requires forall n :: n in q ==> n in data
  {
    if q == [] then [] else
      var k := |q| - 1;
      CallsOf(q[..k], data, callback) + FreeCalls(q[k], data[q[k]], callback)
  }

  /** Cutting a leaf off its owner. */
  lemma LeafOff(m: Mem, m': Mem, c: Ctx, n: Node)
    requires c.In? && Zip(m, c, Bin(Nil, n, Nil)) && Turned(m, m', c, null)
    ensures var t := Join(c.side, Nil, c.n, c.sib);
      Zip(m', c.up, t) && Nodes(t) + CtxNodes(c.up) == CtxNodes(c)
  {
    TurnedLinked(m, m', c, n, null);
    Up(m', c, Nil);
  }

  type Payloads = map<Node, Payload>

  ghost function DataView(ns: set<Node>): Payloads
    reads ns
  {
    map n | n in ns :: n.data
  }

  /** `freed` is gone; the rest of `whole` is linked as before, with its payloads `data`. */
  ghost predicate Destroying(m: Mem, now: Payloads, data: Payloads, whole: Shape, c: Ctx, s: Shape, freed: seq<Node>) {
    && Zip(m, c, s) && LeftGone(c) && freed + Todo(c, s) == Postorder(whole)
    && (forall n :: n in freed ==> n in data)
    && (forall n :: n in Nodes(s) + CtxNodes(c) ==> n in m && n in now && n in data && now[n] == data[n])
  }

  lemma GoDown(m: Mem, now: Payloads, data: Payloads, whole: Shape, c: Ctx, s: Shape, freed: seq<Node>)
    requires s.Bin? && Destroying(m, now, data, whole, c, s, freed)
    ensures s.n in m && m[s.n].left == Root(s.l) && m[s.n].right == Root(s.r)
    ensures s.l.Bin? ==> Destroying(m, now, data, whole, In(c, Left, s.n, s.r), s.l, freed)
    ensures s.l.Nil? && s.r.Bin? ==> Destroying(m, now, data, whole, In(c, Right, s.n, Nil), s.r, freed)
  {
    Descend(m, c, s);
    TodoLeft(c, s);
    if s.l.Nil? { TodoRight(c, s); }
  }

  lemma Descend(m: Mem, c: Ctx, s: Shape)
    requires s.Bin? && Zip(m, c, s)
    ensures s.n in m && m[s.n].left == Root(s.l) && m[s.n].right == Root(s.r)
    ensures Zip(m, In(c, Left, s.n, s.r), s.l) && Zip(m, In(c, Right, s.n, s.l), s.r)
    ensures Nodes(s.l) + CtxNodes(In(c, Left, s.n, s.r)) == Nodes(s) + CtxNodes(c)
    ensures Nodes(s.r) + CtxNodes(In(c, Right, s.n, s.l)) == Nodes(s) + CtxNodes(c)
  {
    PlugLinked(m, c, s);
    PlugLinked(m, In(c, Left, s.n, s.r), s.l);
    PlugLinked(m, In(c, Right, s.n, s.l), s.r);
  }

  lemma LeafGone(m: Mem, m': Mem, now: Payloads, now': Payloads, data: Payloads, whole: Shape, c: Ctx, q: Node,
                 freed: seq<Node>)
    requires Destroying(m, now, data, whole, c, Bin(Nil, q, Nil), freed)
    requires c.In? ==> Turned(m, m', c, null)
    requires forall n :: n in now && n != q ==> n in now' && now'[n] == now[n]
    ensures c.In? ==> Destroying(m', now', data, whole, c.up, Join(c.side, Nil, c.n, c.sib), freed + [q])
    ensures c.Top? ==> freed + [q] == Postorder(whole)
    ensures q in data && forall n :: n in freed ==> n in data
  {
    TodoLeaf(c, q);
    assert freed + ([q] + Later(c)) == (freed + [q]) + Later(c);
    assert q in Nodes(Bin(Nil, q, Nil));
    if c.In? {
      LeafOff(m, m', c, q);
    }
  }

  /** The link of its parent to a leaf is cleared. */
  method CutOff(q: Node, ghost all: set<Node>, ghost c: Ctx) returns (p: Node?)
    requires Zip(View(all), c, Bin(Nil, q, Nil)) && (c.In? ==> c.n in all)
    modifies OwnerSet(c)`left, OwnerSet(c)`right
    ensures p == Owner(c) && q.parent == p && q in all && Turned(old(View(all)), View(all), c, null)
  {
    WhichSide(View(all), c, Bin(Nil, q, Nil));
    p := q.parent;
    if p != null {
      if p.left == q {
        p.left := null;
      } else if p.right == q {
        p.right := null;
      }
    }
  }

  /** The callback takes over the payload of a node. */
  method HandOver(q: Node, callback: bool) returns (calls: Freed)
    modifies q`data
    ensures calls == FreeCalls(q, old(q.data), callback)
  {
    calls := [];
    if q.data != NoData && callback {
      calls := [(q.key, q.data)];
      q.data := NoData;
    }
  }

  lemma TurnedStill(m: Mem, m': Mem, m'': Mem, c: Ctx, q: Node)
    requires Turned(m, m', c, null) && q !in CtxNodes(c)
    requires forall n :: n in m' && n != q ==> n in m'' && m''[n] == m'[n]
    ensures Turned(m, m'', c, null)
  {
  }

  lemma LeafStart(m: Mem, now: Payloads, data: Payloads, whole: Shape, c: Ctx, q: Node, freed: seq<Node>)
    requires Destroying(m, now, data, whole, c, Bin(Nil, q, Nil), freed)
    ensures Zip(m, c, Bin(Nil, q, Nil)) && q !in CtxNodes(c) && (c.In? ==> c.n in m && c.n != q)
    ensures q in m && q in now && q in data && now[q] == data[q]
  {
    assert q in Nodes(Bin(Nil, q, Nil));
  }

  /** A leaf is cut off its parent, handed to the callback and freed. */
  method FreeLeaf(q: Node, callback: bool, ghost all: set<Node>, ghost data: Payloads, ghost whole: Shape, ghost c: Ctx,
                  ghost freed: seq<Node>)
    returns (p: Node?, calls: Freed)
    requires Destroying(View(all), DataView(all), data, whole, c, Bin(Nil, q, Nil), freed)
    modifies q`parent, q`data, OwnerSet(c)`left, OwnerSet(c)`right
    ensures p == Owner(c) && q in data && calls == FreeCalls(q, data[q], callback)
    ensures c.In? ==> Destroying(View(all), DataView(all), data, whole, c.up, Join(c.side, Nil, c.n, c.sib),
                                 freed + [q])
    ensures c.Top? ==> freed + [q] == Postorder(whole)
  {
    hide Destroying, Zip, Turned, Postorder, CtxNodes, Join, FreeCalls;
    ghost var m, now := View(all), DataView(all);
    LeafStart(m, now, data, whole, c, q, freed);
    p := CutOff(q, all, c);
    ghost var m' := View(all);
    calls := HandOver(q, callback);
    q.parent := null;
    TurnedStill(m, m', View(all), c, q);
    LeafGone(m, View(all), now, DataView(all), data, whole, c, q, freed);
  }

  /** The loop of destroy_complex_avltree. */
  method DestroyNodes(root: Node?, callback: bool, ghost all: set<Node>, ghost whole: Shape)
    returns (calls: Freed, ghost freed: seq<Node>)
    requires root == Root(whole) && Zip(View(all), Top, whole) && Nodes(whole) <= all
    modifies all`parent, all`left, all`right, all`data
    ensures freed == Postorder(whole) && (forall n :: n in freed ==> n in all)
    ensures calls == CallsOf(freed, old(DataView(all)), callback)
  {
    ghost var data, c, s := DataView(all), Top, whole;
    var p := root;
    calls, freed := [], [];
    while p != null
      invariant if p == null then freed == Postorder(whole)
                else Destroying(View(all), DataView(all), data, whole, c, s, freed) && p == Root(s)
      invariant (forall n :: n in freed ==> n in data) && calls == CallsOf(freed, data, callback)
      decreases |Postorder(whole)| - |freed|, s
    {
      var q: Node := p;
      GoDown(View(all), DataView(all), data, whole, c, s, freed);
      if q.left != null {
        p := q.left;
        c, s := In(c, Left, s.n, s.r), s.l;
      } else if q.right != null {
        p := q.right;
        c, s := In(c, Right, s.n, Nil), s.r;
      } else {
        var more;
        p, more := FreeLeaf(q, callback, all, data, whole, c, freed);
        CallsStep(freed, q, data, callback);
        calls, freed := calls + more, freed + [q];
        if c.In? {
          c, s := c.up, Join(c.side, Nil, c.n, c.sib);
        }
      }
    }
  }

  /** The nodes of a list that have a payload. */
  ghost function Full(q: seq<Node>, data: Payloads): set<Node>
    requires forall n :: n in q ==> n in data
  {
    set n | n in q && data[n].Data?
  }

  lemma FullMore(q: seq<Node>, n: Node, data: Payloads)
    requires n !in q && n in data && forall x :: x in q ==> x in data
    ensures Full(q + [n], data) == Full(q, data) + (if data[n].Data? then {n} else {})
    ensures |Full(q + [n], data)| == |Full(q, data)| + (if data[n].Data? then 1 else 0)
  {
    assert Full(q + [n], data) == Full(q, data) + (if data[n].Data? then {n} else {});
  }

  lemma NoDupInit(q: seq<Node>)
    requires NoDup(q) && q != []
    ensures NoDup(q[..|q| - 1]) && q[|q| - 1] !in q[..|q| - 1] && q == q[..|q| - 1] + [q[|q| - 1]]
  {
    var before, n := q[..|q| - 1], q[|q| - 1];
    assert q == before + [n];
    assert multiset(q) == multiset(before) + multiset{n};
    forall x | x in before
      ensures multiset(before)[x] == 1 && x != n
    {
      assert x in q && x in multiset(before) && n in q;
    }
  }

  /** x is the key of a node in a set with its payload. */
  ghost predicate Owned(x: (string, Payload), full: set<Node>, data: Payloads)
    requires full <= data.Keys
  {
    exists n :: n in full && x == (n.key, data[n])
  }

  lemma OwnedMore(x: (string, Payload), full: set<Node>, n: Node, data: Payloads)
    requires full <= data.Keys && n in data
    ensures Owned(x, full + {n}, data) <==> Owned(x, full, data) || x == (n.key, data[n])
  {
    assert n in full + {n};
    if Owned(x, full, data) {
      var m :| m in full && x == (m.key, data[m]);
      assert m in full + {n};
    }
  }

  /** The calls of the callback: one for each node that has a payload, with its key and that payload, if there is a
    * callback at all. */
  lemma {:induction false} EveryPayloadOnce(q: seq<Node>, data: Payloads, callback: bool)
    requires NoDup(q) && forall n :: n in q ==> n in data
    ensures var calls, full := CallsOf(q, data, callback), Full(q, data);
      && (forall x :: x in calls <==> callback && Owned(x, full, data))
      && |calls| == if callback then |full| else 0
    decreases |q|
  {
    if q == [] {
      assert Full(q, data) == {};
    } else {
      var before, n := q[..|q| - 1], q[|q| - 1];
      NoDupInit(q);
      EveryPayloadOnce(before, data, callback);
      CallsStep(before, n, data, callback);
      FullMore(before, n, data);
      hide CallsOf, NoDup, Owned;
      assert q == before + [n];
      forall x
        ensures x in CallsOf(q, data, callback) <==> callback && Owned(x, Full(q, data), data)
      {
        OwnedMore(x, Full(before, data), n, data);
        assert x in CallsOf(q, data, callback) <==>
          x in CallsOf(before, data, callback) || x in FreeCalls(n, data[n], callback);
      }
    }
  }

  lemma CallsStep(q: seq<Node>, n: Node, data: Payloads, callback: bool)
    requires n in data && forall x :: x in q ==> x in data
    ensures CallsOf(q + [n], data, callback) == CallsOf(q, data, callback) + FreeCalls(n, data[n], callback)
  {
    assert (q + [n])[..|q|] == q;
  }
}
