/** Reading a whole tree: the traversal with an explicit stack and the resumable walker. */
module AvlWalk {
  import opened AvlShape

  /** What a stack of nodes still has to deliver: each node, then its right subtree, top of the stack first. */
  ghost function Pending(stack: seq<Shape>): seq<Node> {
    if stack == [] then [] else
      var top := stack[|stack| - 1];
      (if top.Bin? then [top.n] + Inorder(top.r) else []) + Pending(stack[..|stack| - 1])
  }

  /** A soundly linked subtree, wherever it hangs. */
  ghost predicate Hung(m: Mem, s: Shape) {
    s.Bin? ==> s.n in m && Linked(m, s, m[s.n].parent)
  }

  /** The stack holds the roots of these subtrees. */
  ghost predicate Stacked(m: Mem, nodes: seq<Node>, stack: seq<Shape>) {
    |nodes| == |stack| && forall i :: 0 <= i < |stack| ==> stack[i].Bin? && nodes[i] == stack[i].n && Hung(m, stack[i])
  }

  lemma HungChildren(m: Mem, s: Shape)
    requires s.Bin? && Hung(m, s)
    ensures Hung(m, s.l) && Hung(m, s.r) && m[s.n].left == Root(s.l) && m[s.n].right == Root(s.r)
  {
    assert Linked(m, s.l, s.n) && Linked(m, s.r, s.n);
  }

  /** Everything still to come from the subtree in hand and then from the stack. */
  ghost function Todo(x: Shape, stack: seq<Shape>): seq<Node> {
    Inorder(x) + Pending(stack)
  }

  lemma PushTodo(x: Shape, stack: seq<Shape>)
    requires x.Bin?
    ensures Todo(x.l, stack + [x]) == Todo(x, stack)
  {
    assert (stack + [x])[..|stack|] == stack;
    var y, p := Inorder(x.r), Pending(stack);
    assert Inorder(x.l) + [x.n] + y + p == Inorder(x.l) + ([x.n] + y + p);
  }

  lemma PopTodo(stack: seq<Shape>)
    requires stack != [] && stack[|stack| - 1].Bin?
    ensures var k := |stack| - 1; Todo(Nil, stack) == [stack[k].n] + Todo(stack[k].r, stack[..k])
  {
    var k := |stack| - 1;
    var y, p := Inorder(stack[k].r), Pending(stack[..k]);
    assert [] + ([stack[k].n] + y + p) == [stack[k].n] + (y + p);
  }

  /** The inner loop of the traversal: a node and its left spine go onto the stack. */
  method PushLeft(n: Node?, nodes0: seq<Node>, ghost all: set<Node>, ghost s: Shape, ghost stack0: seq<Shape>)
    returns (nodes: seq<Node>, ghost stack: seq<Shape>)
    requires n == Root(s) && Hung(View(all), s) && Stacked(View(all), nodes0, stack0)
    ensures Stacked(View(all), nodes, stack) && Todo(Nil, stack) == Todo(s, stack0)
  {
    var c := n;
    ghost var m, x := View(all), s;
    nodes, stack := nodes0, stack0;
    while c != null
      invariant c == Root(x) && Hung(m, x) && Stacked(m, nodes, stack)
      invariant Todo(x, stack) == Todo(s, stack0)
      decreases x
    {
      PushTodo(x, stack);
      HungChildren(m, x);
      nodes, stack := nodes + [c], stack + [x];
      c := c.left;
      x := x.l;
    }
  }

  /** complex_inorder_traverse_avltree: `visited` lists the nodes handed to the callback. */
  method InorderTraverse(n: Node?, ghost all: set<Node>, ghost s: Shape) returns (visited: seq<Node>)
    requires n == Root(s) && Hung(View(all), s)
    ensures visited == Inorder(s)
  {
    visited := [];
    var nodes;
    ghost var stack;
    nodes, stack := PushLeft(n, [], all, s, []);
    assert Inorder(s) + [] == Inorder(s);
    while nodes != []
      invariant Stacked(View(all), nodes, stack) && visited + Todo(Nil, stack) == Inorder(s)
      decreases |Todo(Nil, stack)|
    {
      var k := |nodes| - 1;
      ghost var top := stack[k];
      var c := nodes[k];
      PopTodo(stack);
      HungChildren(View(all), top);
      assert visited + ([c] + Todo(top.r, stack[..k])) == visited + [c] + Todo(top.r, stack[..k]);
      visited := visited + [c];
      nodes, stack := PushLeft(c.right, nodes[..k], all, top.r, stack[..k]);
    }
  }

  /** The function-static variables of walk_inorder_avltree. */
  datatype WalkState = Init | Push | Pop

  class Walker {
    var state: WalkState
    var c: Node?
    var nodes: seq<Node>
    ghost var all: set<Node>
    ghost var x: Shape
    ghost var stack: seq<Shape>

    constructor ()
      ensures state == Init
    {
      state := Init;
    }

    /** A walk is under way over nodes that have not been relinked since it started. */
    ghost predicate Walking()
      reads this, all
    {
      && state != Init && c == Root(x) && (state == Pop ==> x.Nil?)
      && Hung(View(all), x) && Stacked(View(all), nodes, stack)
    }

    /** The nodes the walk has yet to return. */
    ghost function Remaining(): seq<Node>
      reads this
    {
      Todo(x, stack)
    }

    /** The answer `r` to a call made when `todo` was still to come. */
    ghost predicate Answered(todo: seq<Node>, r: Node?)
      reads this, all
    {
      if todo == [] then r == null && state == Init
      else r == todo[0] && Walking() && Remaining() == todo[1..]
    }

    /** First call: start below `n`. Every call returns the next node, or NULL at the end. */
    method Walk(n: Node?, ghost all0: set<Node>, ghost s: Shape) returns (r: Node?)
      requires if state == Init then n == Root(s) && Hung(View(all0), s) else Walking()
      modifies this
      ensures Answered(if old(state) == Init then Inorder(s) else old(Remaining()), r)
      ensures all == if old(state) == Init then all0 else old(all)
    {
      if state == Init {
        nodes, c, state := [], n, Push;
        all, x, stack := all0, s, [];
        assert Inorder(s) + [] == Inorder(s);
      }
      ghost var todo := Remaining();
      r := Advance();
    }

    /** The two states of a walk under way, until a node comes off the stack or none is left. */
    method Advance() returns (r: Node?)
      requires Walking()
      modifies this
      ensures all == old(all)
      ensures Answered(old(Remaining()), r)
    {
      while state == Push
        invariant Walking() && Remaining() == old(Remaining()) && all == old(all)
        decreases x, state == Push
      {
        PushStep();
      }
      if nodes != [] {
        r := PopStep();
      } else {
        state := Init;
        r := null;
      }
    }

    method PushStep()
      requires Walking() && state == Push
      modifies this
      ensures Walking() && Remaining() == old(Remaining()) && all == old(all)
      ensures if old(x).Bin? then x == old(x).l else state == Pop && x == old(x)
    {
      ghost var m := View(all);
      if c != null {
        PushTodo(x, stack);
        HungChildren(m, x);
        hide Inorder, Linked;
        nodes, stack, c, x := nodes + [c], stack + [x], c.left, x.l;
      }
      state := if c == null then Pop else Push;
    }

    method PopStep() returns (r: Node)
      requires Walking() && state == Pop && nodes != []
      modifies this
      ensures Walking() && old(Remaining()) == [r] + Remaining() && all == old(all)
    {
      var k := |nodes| - 1;
      PopTodo(stack);
      HungChildren(View(all), stack[k]);
      r := nodes[k];
      x := stack[k].r;
      nodes, stack := nodes[..k], stack[..k];
      hide Linked, Pending;
      c := r.right;
      state := Push;
    }
  }

  /** Calling the walker until it answers NULL yields the whole tree in order. */
  method WalkAll(w: Walker, n: Node?, ghost all: set<Node>, ghost s: Shape) returns (visited: seq<Node>)
    requires w.state == Init && n == Root(s) && Hung(View(all), s)
    modifies w
    ensures visited == Inorder(s) && w.state == Init
  {
    hide Inorder, Hung, Stacked, Walker.Remaining;
    visited := [];
    ghost var rest := Inorder(s);
    var r := w.Walk(n, all, s);
    while r != null
      invariant visited + rest == Inorder(s)
      invariant w.Answered(rest, r)
      decreases |rest|
    {
      visited, rest := visited + [r], rest[1..];
      r := w.Walk(n, all, s);
    }
  }
}
