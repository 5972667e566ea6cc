/** The generic queue: a ring of slots that grows by one slot at a time and gives up elements from any position. */
module RingQueue {
  import opened Options

  /** s without the element at position p, the rest in order. */
  function Removed<T>(s: seq<T>, p: nat): seq<T>
    requires p < |s|
  {
    s[..p] + s[p + 1..]
  }

  /** The slot of position j counted from the head around a ring, and the position of a slot. */
  function Slot(size: nat, head: nat, j: nat): int {
    if head + j < size then head + j else head + j - size
  }

  function Position(size: nat, head: nat, i: nat): int {
    if i >= head then i - head else i + size - head
  }

  lemma Ring(size: nat, head: nat, j: nat)
    requires head < size && j < size
    ensures 0 <= Slot(size, head, j) < size && Position(size, head, Slot(size, head, j)) == j
    ensures 0 <= Position(size, head, j) < size && Slot(size, head, Position(size, head, j)) == j
  {
  }

  /** k modulo the size of the ring, for a k that is at most once around. */
  function Wrap(k: nat, size: nat): (r: nat)
    requires 0 < size && k < 2 * size
    ensures r == if k < size then k else k - size
  {
    k % size
  }

  /** The slots of the window from the head hold s in order, and every slot outside it is NULL. */
  ghost predicate Holds<T>(q: seq<Option<T>>, head: nat, s: seq<T>) {
    && |s| <= |q| && (if |q| == 0 then head == 0 else head < |q|)
    && (forall i :: 0 <= i < |q| ==>
         q[i] == if Position(|q|, head, i) < |s| then Some(s[Position(|q|, head, i)]) else None)
  }

  lemma HoldsAt<T>(q: seq<Option<T>>, head: nat, s: seq<T>, j: nat)
    requires Holds(q, head, s) && j < |s|
    ensures 0 <= Slot(|q|, head, j) < |q| && q[Slot(|q|, head, j)] == Some(s[j])
  {
    Ring(|q|, head, j);
  }

  lemma Appended<T>(q: seq<Option<T>>, head: nat, s: seq<T>, x: T)
    requires Holds(q, head, s) && |s| < |q|
    ensures 0 <= Slot(|q|, head, |s|) < |q| && Holds(q[Slot(|q|, head, |s|) := Some(x)], head, s + [x])
  {
    Ring(|q|, head, |s|);
  }

  /** A full ring with one more slot: what stood before the head moves down by one, its first element to the new
    * slot. */
  function Wider<T>(q: seq<Option<T>>, head: nat, junk: Option<T>): seq<Option<T>>
    requires head < |q| || (|q| == 0 && head == 0)
  {
    seq(|q| + 1, i requires 0 <= i < |q| + 1 =>
      if head == 0 then (if i == |q| then junk else q[i])
      else if i == |q| then q[0]
      else if i < head - 1 then q[i + 1]
      else if i == head - 1 then None
      else q[i])
  }

  /** The slot after the tail of the wider ring takes the new element, whatever realloc left there. */
  lemma WiderAppended<T>(q: seq<Option<T>>, head: nat, s: seq<T>, junk: Option<T>, x: T)
    requires Holds(q, head, s) && |s| == |q|
    ensures 0 <= Slot(|q| + 1, head, |s|) <= |q|
    ensures Holds(Wider(q, head, junk)[Slot(|q| + 1, head, |s|) := Some(x)], head, s + [x])
  {
    var w := Wider(q, head, junk);
    var k := Slot(|q| + 1, head, |s|);
    forall i | 0 <= i < |w|
      ensures w[k := Some(x)][i] ==
        if Position(|w|, head, i) < |s| + 1 then Some((s + [x])[Position(|w|, head, i)]) else None
    {
    }
  }

  /** Taking the element at the head. */
  lemma HeadRemoved<T>(q: seq<Option<T>>, head: nat, s: seq<T>)
    requires Holds(q, head, s) && s != []
    ensures Holds(q[head := None], if head + 1 == |q| then 0 else head + 1, Removed(s, 0))
  {
  }

  /** From a slot at or above the head: the elements between the head and it move up, and so does the head. */
  function ShiftedUp<T>(q: seq<Option<T>>, head: nat, index: nat): seq<Option<T>>
    requires head < index < |q|
  {
    seq(|q|, i requires 0 <= i < |q| => if head < i <= index then q[i - 1] else if i == head then None else q[i])
  }

  lemma ShiftUpRemoved<T>(q: seq<Option<T>>, head: nat, s: seq<T>, index: nat)
    requires Holds(q, head, s) && head < index < |q| && index - head < |s|
    ensures Holds(ShiftedUp(q, head, index), head + 1, Removed(s, index - head))
  {
  }

  /** From a slot below the head: the elements after it move down, and the tail with them. */
  function ShiftedDown<T>(q: seq<Option<T>>, index: nat, end: nat): seq<Option<T>>
    requires index <= end < |q|
  {
    seq(|q|, i requires 0 <= i < |q| => if index <= i < end then q[i + 1] else if i == end then None else q[i])
  }

  lemma ShiftDownRemoved<T>(q: seq<Option<T>>, head: nat, s: seq<T>, index: nat)
    requires Holds(q, head, s) && index < head && Position(|q|, head, index) < |s|
    ensures var end := Slot(|q|, head, |s| - 1);
      index <= end < head && Holds(ShiftedDown(q, index, end), head, Removed(s, Position(|q|, head, index)))
  {
    var p, end := Position(|q|, head, index), Slot(|q|, head, |s| - 1);
    var t, r := ShiftedDown(q, index, end), Removed(s, p);
    assert |r| == |s| - 1 && forall k :: 0 <= k < |r| ==> r[k] == if k < p then s[k] else s[k + 1];
    forall i | 0 <= i < |q|
      ensures t[i] == if Position(|q|, head, i) < |r| then Some(r[Position(|q|, head, i)]) else None
    {
      if index <= i < end {
        assert t[i] == q[i + 1] && Position(|q|, head, i + 1) == Position(|q|, head, i) + 1;
      }
    }
  }

  class Gueue<T(==)> {
    var queue: array<Option<T>>
    var head: nat
    var count: nat
    ghost var contents: seq<T>

    constructor ()
      ensures Valid() && fresh(queue) && contents == []
    {
      queue, head, count, contents := new Option<T>[0], 0, 0, [];
    }

    ghost predicate Valid()
      reads this, queue
    {
      count == |contents| && Holds(queue[..], head, contents)
    }

    // ---- add_tail_gueue_katcl ----

    method GrowByOne() returns (ghost junk: Option<T>)
      requires Valid()
      modifies this`queue
      ensures fresh(queue) && queue[..] == Wider(old(queue[..]), head, junk)
    {
      var size := queue.Length;
      var tmp := new Option<T>[size + 1];
      junk := tmp[size];
      forall i | 0 <= i < size {
        tmp[i] := queue[i];
      }
      if head > 0 {
        tmp[size] := tmp[0];
        if head > 1 {
          forall i | 0 <= i < head - 1 {
            tmp[i] := tmp[i + 1];
          }
        }
        tmp[head - 1] := None;
      }
      queue := tmp;
    }

    method AddTail(datum: Option<T>) returns (result: int)
      requires Valid()
      modifies this, queue
      ensures Valid() && (queue == old(queue) || fresh(queue))
      ensures if datum.None? then result == -1 && contents == old(contents)
        else result == 0 && contents == old(contents) + [datum.value]
    {
      if datum.None? {
        return -1;
      }
      ghost var q := queue[..];
      if count >= queue.Length {
        ghost var junk := GrowByOne();
        WiderAppended(q, head, contents, junk, datum.value);
      } else {
        Appended(q, head, contents, datum.value);
      }
      var index := Wrap(head + count, queue.Length);
      hide Holds, Wider;
      queue[index] := datum;
      contents, count := contents + [datum.value], count + 1;
      return 0;
    }

    // ---- looking ----

    /** get_from_head_gueue_katcl */
    method GetFromHead(position: nat) returns (r: Option<T>)
      requires Valid()
      ensures r == if position < |contents| then Some(contents[position]) else None
    {
      if position < count {
        HoldsAt(queue[..], head, contents, position);
        r := queue[Wrap(head + position, queue.Length)];
      } else {
        r := None;
      }
    }

    /** get_precedence_head_gueue_katcl: the first element that is precedent enough; without a precedence function, all
      * are. */
    method GetPrecedenceHead(precedence: Option<T -> nat>, least: nat) returns (r: Option<T>, ghost at: nat)
      requires Valid()
      ensures r.Some? ==> at < |contents| && contents[at] == r.value
      ensures precedence.None? ==> at == 0 && (r.None? <==> contents == [])
      ensures precedence.Some? && r.Some? ==>
        precedence.value(r.value) >= least && forall j :: 0 <= j < at ==> precedence.value(contents[j]) < least
      ensures precedence.Some? && r.None? ==> forall x :: x in contents ==> precedence.value(x) < least
    {
      at := 0;
      if precedence.None? {
        r := GetFromHead(0);
        return;
      }
      for j := 0 to count
        invariant forall k :: 0 <= k < j ==> precedence.value(contents[k]) < least
      {
        HoldsAt(queue[..], head, contents, j);
        var i := Wrap(head + j, queue.Length);
        if precedence.value(queue[i].value) >= least {
          return queue[i], j;
        }
      }
      return None, 0;
    }

    // ---- removing ----

    /** The element to remove is the first: the head moves on. */
    method AdvanceHead()
      requires Valid() && count > 0
      modifies this`head, this`count, this`contents, queue
      ensures Valid() && contents == Removed(old(contents), 0)
    {
      HeadRemoved(queue[..], head, contents);
      queue[head] := None;
      head := Wrap(head + 1, queue.Length);
      count := count - 1;
      contents := Removed(contents, 0);
    }

    /** The slot is ahead of the head: move what is between them toward it. */
    method ShiftUp(index: nat)
      requires Valid() && head < index < queue.Length && index - head < count
      modifies this`head, this`count, this`contents, queue
      ensures Valid() && contents == Removed(old(contents), index - old(head))
    {
      ShiftUpRemoved(queue[..], head, contents, index);
      forall i | head < i <= index {
        queue[i] := queue[i - 1];
      }
      queue[head] := None;
      assert queue[..] == ShiftedUp(old(queue[..]), head, index);
      contents := Removed(contents, index - head);
      head := Wrap(head + 1, queue.Length);
      count := count - 1;
    }

    method MoveDown(index: nat, end: nat)
      requires index <= end < queue.Length
      modifies queue
      ensures queue[..] == ShiftedDown(old(queue[..]), index, end)
    {
      if index < end {
        forall i | index <= i < end {
          queue[i] := queue[i + 1];
        }
      }
      queue[end] := None;
    }

    /** The slot is below the head: move the tail back. */
    method ShiftDown(index: nat)
      requires Valid() && index < head < queue.Length && Position(queue.Length, head, index) < count
      modifies this`count, this`contents, queue
      ensures Valid() && contents == Removed(old(contents), Position(queue.Length, head, index))
    {
      ShiftDownRemoved(queue[..], head, contents, index);
      var end := Wrap(head + count - 1, queue.Length);
      assert end == Slot(queue.Length, head, count - 1);
      hide Holds, ShiftedDown, Slot, Position, Removed;
      MoveDown(index, end);
      contents, count := Removed(contents, Position(queue.Length, head, index)), count - 1;
    }

    /** remove_index_gueue_katcl on an occupied slot, if there is any */
    method RemoveIndex(index: nat) returns (datum: Option<T>)
      requires Valid() && (count > 0 ==> index < queue.Length && Position(queue.Length, head, index) < count)
      modifies this, queue
      ensures Valid() && queue == old(queue)
      ensures if old(contents) == [] then datum == None && contents == []
        else
          var p := Position(queue.Length, old(head), index);
          datum == Some(old(contents)[p]) && contents == Removed(old(contents), p)
    {
      if count <= 0 {
        return None;
      }
      Ring(queue.Length, head, index);
      HoldsAt(queue[..], head, contents, Position(queue.Length, head, index));
      datum := queue[index];
      if index == head {
        AdvanceHead();
      } else if index > head {
        ShiftUp(index);
      } else {
        ShiftDown(index);
      }
    }

    /** remove_from_head_gueue_katcl */
    method RemoveFromHead(position: nat) returns (datum: Option<T>)
      requires Valid()
      modifies this, queue
      ensures Valid() && queue == old(queue)
      ensures if position >= |old(contents)| then datum == None && contents == old(contents)
        else datum == Some(old(contents)[position]) && contents == Removed(old(contents), position)
    {
      if position >= count {
        return None;
      }
      Ring(queue.Length, head, position);
      datum := RemoveIndex(Wrap(head + position, queue.Length));
    }

    /** remove_datum_gueue_katcl: the first occurrence goes. */
    method RemoveDatum(datum: T) returns (r: Option<T>, ghost at: nat)
      requires Valid()
      modifies this, queue
      ensures Valid() && queue == old(queue)
      ensures r.None? <==> datum !in old(contents)
      ensures r.None? ==> contents == old(contents)
      ensures r.Some? ==> r.value == datum && at < |old(contents)| && datum == old(contents)[at]
      ensures r.Some? ==> datum !in old(contents)[..at] && contents == Removed(old(contents), at)
    {
      var i, j := 0, 0;
      while j < count
        invariant 0 <= j <= count && forall k :: 0 <= k < j ==> contents[k] != datum
        modifies {}
      {
        HoldsAt(queue[..], head, contents, j);
        i := Wrap(head + j, queue.Length);
        if queue[i] == Some(datum) {
          break;
        }
        j := j + 1;
      }
      at := j;
      if j >= count {
        return None, at;
      }
      Ring(queue.Length, head, j);
      r := RemoveIndex(i);
    }

    /** remove_head_gueue_katcl */
    method RemoveHead() returns (datum: Option<T>)
      requires Valid()
      modifies this, queue
      ensures Valid() && queue == old(queue)
      ensures if old(contents) == [] then datum == None && contents == []
        else datum == Some(old(contents)[0]) && contents == old(contents)[1..]
    {
      if count <= 0 {
        return None;
      }
      datum := RemoveIndex(head);
    }

    /** clear_gueue_katcl; `released` lists what the release function is called on. */
    method Clear() returns (released: seq<T>)
      requires Valid()
      modifies this, queue
      ensures Valid() && queue == old(queue) && contents == [] && released == old(contents)
    {
      released := [];
      for j := 0 to count
        invariant queue == old(queue) && head == old(head) && count == old(count) && contents == old(contents)
        invariant released == contents[..j]
        invariant forall i :: 0 <= i < queue.Length ==>
          queue[i] == if Position(queue.Length, head, i) < j then None else old(queue[..])[i]
      {
        HoldsAt(old(queue[..]), head, contents, j);
        Ring(queue.Length, head, j);
        var i := Wrap(head + j, queue.Length);
        released := released + [queue[i].value];
        queue[i] := None;
      }
      count, contents := 0, [];
    }
  }
}
