/** Composite variables as payload objects that are changed in place, proved to follow the value functions. The tree of
  * a map-typed variable is taken as the map it implements. */
module VrblPayload {
  import opened CString
  import opened Options
  import opened VrblPath
  import V = VrblValue
  import opened VrblWalk

  type Pay = V.Pay
  type Kind = V.Kind
  type How = V.How

  /** index + 1 in an unsigned int */
  function WrappedSize(i: nat): (r: nat)
    ensures r == i + 1 <==> i + 1 < UINT
    ensures r <= i <==> i + 1 >= UINT
  {
    (i + 1) % UINT
  }

  /** How a scan went: well, not, or over the end of its memory. */
  datatype Fate = Success | Failure | Loss

  class Payload {
    var kind: Kind
    var text: Option<string>
    var tree: map<string, Payload>
    var elements: seq<Payload?>
    var lost: bool
    ghost var value: Pay
    ghost var repr: set<Payload>

    /** setup_vrbl_katcp: an empty payload of a given type. */
    constructor (kind: Kind)
      requires !kind.GONE?
      ensures Valid() && fresh(repr) && value == V.Setup(kind)
    {
      this.kind, text, tree, elements, lost, value := kind, None, map[], [], false, V.Setup(kind);
      repr := {this};
    }

    /** c and what it owns are a part of this payload. */
    ghost predicate Holds(c: Payload)
      reads this, repr
    {
      c in repr && c in c.repr && c.repr < repr && this !in c.repr
    }

    ghost predicate Valid()
      reads this, repr
      decreases repr, 1
    {
      && this in repr && !lost
      && match kind
         case STRING => value == V.Text(text)
         case TREE => ValidTree()
         case ARRAY => ValidArray()
         case GONE => false
    }

    ghost predicate ValidTree()
      reads this, repr
      decreases repr, 0
    {
      && value.Tree? && value.fields.Keys == tree.Keys
      && (forall k :: k in tree ==> Holds(tree[k]) && tree[k].Valid())
      && (forall k :: k in tree ==> value.fields[k] == tree[k].value)
      && (forall j, k :: j in tree && k in tree && j != k ==> tree[j].repr !! tree[k].repr)
    }

    ghost predicate ValidArray()
      reads this, repr
      decreases repr, 0
    {
      && value.Arr? && |value.slots| == |elements|
      && (forall i :: 0 <= i < |elements| ==> (elements[i] == null <==> value.slots[i].None?))
      && (forall i :: 0 <= i < |elements| && elements[i] != null ==>
            Holds(elements[i]) && elements[i].Valid() && value.slots[i] == Some(elements[i].value))
      && (forall i, j :: 0 <= i < j < |elements| && elements[i] != null && elements[j] != null ==>
            elements[i].repr !! elements[j].repr)
    }

    /** Validity of a map and of its parts, without looking into the parts. */
    lemma Opened()
      requires Valid() && kind.TREE?
      ensures this in repr && !lost && ValidTree()
    {
    }

    lemma Closed()
      requires this in repr && !lost && kind.TREE? && ValidTree()
      ensures Valid()
    {
    }

    /** The payload object one segment down, if there is one. */
    ghost function Below(seg: Seg): (c: Payload?)
      requires Valid()
      reads this, repr
      ensures c != null ==> Holds(c) && c.Valid()
    {
      if kind.TREE? then
        assert ValidTree();
        if seg.Key? && seg.name in tree then tree[seg.name] else null
      else if kind.ARRAY? then
        assert ValidArray();
        if seg.Index? && seg.i < |elements| then elements[seg.i] else null
      else null
    }

    /** The payload object at a location, if there is one. */
    ghost function Part(loc: seq<Seg>): Payload?
      requires Valid()
      reads this, repr
      decreases |loc|
    {
      if loc == [] then this
      else
        var c := Below(loc[0]);
        if c == null then null else c.Part(loc[1..])
    }

    /** Every payload object that was at a location still is there. */
    twostate predicate Stay()
      requires old(Valid())
      reads this, repr
    {
      Valid() ==> forall loc :: old(Part(loc)) != null ==> Part(loc) == old(Part(loc))
    }

    /** Every payload object that is at a location now was there before. */
    twostate predicate Remain()
      requires old(Valid())
      reads this, repr
    {
      Valid() && forall loc :: Part(loc) != null ==> Part(loc) == old(Part(loc))
    }

    // ---- scan ----

    /** What every scan does to the payload it is called on; after a loss it is no payload any more. */
    twostate predicate After(outcome: V.Outcome, r: Fate)
      reads this, repr
    {
      match outcome
      case Scanned(v, ok) =>
        Valid() && old(repr) <= repr && kind == old(kind) && value == v && r == (if ok then Success else Failure)
      case Corrupted => !Valid() && r == Loss
    }

    /** scan_string_vrbl_katcp */
    method ScanString(newText: Option<string>, path: Option<string>, how: How, leaf: Kind) returns (r: Fate)
      requires Valid() && kind.STRING?
      modifies this
      ensures After(V.Scan(old(value), newText, path, how, leaf), r) && Stay() && repr == old(repr)
    {
      if path.Some? && path.value != "" {
        return Failure;
      }
      if how.MustCreate? && text.Some? {
        return Failure;
      }
      text := newText;
      value := V.Text(newText);
      return Success;
    }

    /** Own more of the heap than the parts of a map take up. */
    ghost method Widen(more: set<Payload>)
      requires Valid() && kind.TREE?
      modifies `repr
      ensures Valid() && repr == old(repr) + more
    {
      Opened();
      hide Valid;
      repr := repr + more;
      Closed();
    }

    /** Put c, which owns a part of the heap that no other has, under a key where there was nothing. */
    method Hang(key: string, c: Payload)
      requires Valid() && kind.TREE? && key !in tree
      requires c.Valid() && Holds(c) && forall k :: k in tree ==> tree[k].repr !! c.repr
      modifies `tree, `value
      ensures Valid() && tree == old(tree)[key := c] && value == V.Put(old(value), Key(key), c.value)
    {
      Opened();
      hide Valid;
      tree, value := tree[key := c], V.Tree(value.fields[key := c.value]);
      Closed();
    }

    /** Put c, which owns its part of the heap, under a key where there was nothing. */
    method Attach(key: string, c: Payload)
      requires Valid() && kind.TREE? && key !in tree
      requires c.Valid() && c in c.repr && c.repr !! repr
      modifies `tree, `value, `repr
      ensures Valid() && kind == old(kind) && tree == old(tree)[key := c]
      ensures repr == old(repr) + c.repr && value == V.Put(old(value), Key(key), c.value)
    {
      Opened();
      hide Valid;
      assert forall k :: k in tree ==> tree[k].repr <= repr;
      Widen(c.repr);
      Hang(key, c);
    }

    /** Make an empty payload of a given type under a key where there is none. */
    method CreateField(key: string, kind: Kind)
      requires Valid() && this.kind.TREE? && !kind.GONE? && key !in tree
      modifies this
      ensures Valid() && this.kind == old(this.kind) && fresh(repr - old(repr)) && old(repr) <= repr && key in tree
      ensures value == V.Put(old(value), Key(key), V.Setup(kind)) && V.At(value, Key(key)) == Some(V.Setup(kind))
        && Stay()
    {
      var ty := new Payload(kind);
      Attach(key, ty);
      assert V.At(value, Key(key)) == Some(V.Setup(kind));
      hide V.Put, V.At;
      forall loc | old(Part(loc)) != null
        ensures Part(loc) == old(Part(loc))
      {
        if loc != [] {
          assert Below(loc[0]) == old(Below(loc[0]));
        }
      }
    }

    /** All is well but for the payload under one key, which may have changed its value and taken up new objects. */
    ghost predicate OtherFields(key: string)
      reads this, repr
    {
      && this in repr && !lost && kind.TREE? && value.Tree? && value.fields.Keys == tree.Keys && key in tree
        && tree[key] in repr
      && (forall k :: k in tree && k != key ==>
           Holds(tree[k]) && tree[k].Valid() && value.fields[k] == tree[k].value && tree[k].repr !! tree[key].repr)
      && (forall j, k :: j in tree && k in tree && j != k && j != key && k != key ==> tree[j].repr !! tree[k].repr)
    }

    /** Take over the new value and the new objects of the payload under a key. */
    ghost method FollowField(key: string)
      requires OtherFields(key) && tree[key].Valid() && this !in tree[key].repr
      modifies `value, `repr
      ensures Valid() && kind == old(kind) && repr == old(repr) + tree[key].repr
      ensures value == V.Put(old(value), Key(key), tree[key].value)
    {
      assert tree[key] in tree[key].repr;
      hide Valid;
      value, repr := V.Tree(value.fields[key := tree[key].value]), repr + tree[key].repr;
      assert forall k :: k in tree ==> Holds(tree[k]) && tree[k].Valid();
      Closed();
    }

    /** The key and the rest of the path that the tree operations cut off. */
    static method SplitKey(path: string) returns (h: Head)
      ensures h == TreeHead(path)
    {
      if path == "" || path[0] != DELIM_TREE {
        return Bad;
      }
      NextMeans(path, 0);
      var next := NextElement(Some(path));
      if next < 0 {
        return Bad;
      }
      if next == 0 {
        return Head(Key(path[1..]), None);
      }
      return Head(Key(path[1..next]), Some(path[next..]));
    }

    /** Go deeper: scan the payload under a key. */
    method ScanFieldOnly(key: string, newText: Option<string>, rest: Option<string>, how: How, leaf: Kind)
      returns (r: Fate)
      requires Valid() && kind.TREE? && key in tree
      modifies tree[key].repr, `value, `repr
      ensures fresh(repr - old(repr)) && old(tree[key].Valid()) && old(tree[key]).Stay()
        && V.At(old(value), Key(key)).Some?
      ensures After(V.Above(old(value), Key(key),
                              V.Scan(V.At(old(value), Key(key)).value, newText, rest, how, leaf)), r)
      decreases V.Size(rest), 2
    {
      hide Valid, V.Scan, V.Put, Stay;
      Opened();
      var c := tree[key];
      r := c.Scan(newText, rest, how, leaf);
      if r == Loss {
        if Valid() {
          Opened();
        }
        return;
      }
      assert OtherFields(key) by {
        assert forall k :: k in tree && k != key ==>
          tree[k].repr == old(tree[k].repr) && tree[k].value == old(tree[k].value);
        assert forall k :: k in tree && k != key ==> tree[k].Valid() && tree[k].repr !! c.repr;
      }
      FollowField(key);
    }

    method ScanField(key: string, newText: Option<string>, rest: Option<string>, how: How, leaf: Kind) returns (r: Fate)
      requires Valid() && kind.TREE? && key in tree
      modifies repr
      ensures fresh(repr - old(repr)) && V.At(old(value), Key(key)).Some? && Stay()
      ensures After(V.Above(old(value), Key(key),
                              V.Scan(V.At(old(value), Key(key)).value, newText, rest, how, leaf)), r)
      decreases V.Size(rest), 3
    {
      hide V.Scan, V.Above, V.At;
      ghost var c := Below(Key(key));
      r := ScanFieldOnly(key, newText, rest, how, leaf);
      assert tree == old(tree) && kind == old(kind);
      if r != Loss {
        assert Valid();
        forall loc | old(Part(loc)) != null
          ensures Part(loc) == old(Part(loc))
        {
          if loc != [] {
            assert Below(loc[0]) == old(Below(loc[0]));
          }
        }
      }
    }

    /** Scan the payload under a key, made first if it is not there and may be. */
    method EnterField(key: string, newText: Option<string>, rest: Option<string>, how: How, leaf: Kind)
      returns (r: Fate)
      requires Valid() && kind.TREE?
      modifies repr
      ensures After(V.Onward(old(value), Key(key), newText, rest, how, leaf), r) && Stay() && fresh(repr - old(repr))
      decreases V.Size(rest), 4
    {
      hide V.Scan, V.Put;
      if key !in tree {
        if how.NoCreate? || leaf.GONE? {
          return Failure;
        }
        var infer := V.Inferred(rest, leaf);
        CreateField(key, infer);
        V.AboveTwice(old(value), Key(key), V.Setup(infer), V.Scan(V.Setup(infer), newText, rest, how, leaf));
      }
      r := ScanField(key, newText, rest, how, leaf);
    }

    /** scan_tree_vrbl_katcp */
    method ScanTree(newText: Option<string>, path: Option<string>, how: How, leaf: Kind) returns (r: Fate)
      requires Valid() && kind.TREE?
      modifies repr
      ensures After(V.Scan(old(value), newText, path, how, leaf), r) && Stay() && fresh(repr - old(repr))
      decreases V.Size(path), 0
    {
      if path.None? {
        return if newText.None? then Success else Failure;
      }
      V.ScanStep(value, newText, path.value, how, leaf);
      var h := SplitKey(path.value);
      if h.Bad? {
        return Failure;
      }
      HeadSeg(path.value, 0);
      RestShorter(path.value, 0);
      assert h == V.SegHead(value, path.value);
      hide V.Scan, TreeHead, V.SegHead, V.Onward;
      r := EnterField(h.seg.name, newText, h.rest, how, leaf);
    }

    // ---- arrays ----

    /** The slots up to a size, the new ones empty. */
    method Grow(size: nat)
      requires Valid() && kind.ARRAY?
      modifies `elements, `value
      ensures Valid() && kind == old(kind) && repr == old(repr)
      ensures old(value).Arr? && value == V.Arr(V.Grown(old(value).slots, size)) && |elements| >= size
      ensures old(elements) <= elements
    {
      if |elements| < size {
        elements := elements + seq(size - |elements|, _ => null);
      }
      value := V.Arr(V.Grown(value.slots, size));
      assert forall i :: 0 <= i < |old(elements)| ==> elements[i] == old(elements)[i];
      assert ValidArray();
    }

    /** Put c, which owns its part of the heap, into an empty slot. */
    method Fill(i: nat, c: Payload)
      requires Valid() && kind.ARRAY? && i < |elements| && elements[i] == null
      requires c.Valid() && c in c.repr && c.repr !! repr
      modifies `elements, `value, `repr
      ensures Valid() && kind == old(kind) && elements == old(elements)[i := c]
      ensures repr == old(repr) + c.repr && value == V.Put(old(value), Index(i), c.value)
    {
      elements, value, repr := elements[i := c], V.Arr(value.slots[i := Some(c.value)]), repr + c.repr;
      assert forall j :: 0 <= j < |elements| && j != i && elements[j] != null ==>
        Holds(elements[j]) && elements[j].Valid() && elements[j].repr !! c.repr;
      assert ValidArray();
    }

    /** All is well but for the payload in slot i, which may have changed its value and taken up new objects. */
    ghost predicate OtherSlots(i: nat)
      reads this, repr
    {
      && this in repr && !lost && kind.ARRAY? && value.Arr? && |value.slots| == |elements|
      && i < |elements| && elements[i] != null && elements[i] in repr && value.slots[i].Some?
      && (forall j :: 0 <= j < |elements| ==> (elements[j] == null <==> value.slots[j].None?))
      && (forall j :: 0 <= j < |elements| && j != i && elements[j] != null ==>
           (Holds(elements[j]) && elements[j].Valid() && value.slots[j] == Some(elements[j].value)
            && elements[j].repr !! elements[i].repr))
      && (forall j, k :: 0 <= j < k < |elements| && j != i && k != i && elements[j] != null && elements[k] != null ==>
           elements[j].repr !! elements[k].repr)
    }

    ghost method FollowSlot(i: nat)
      requires OtherSlots(i) && elements[i].Valid() && this !in elements[i].repr
      modifies `value, `repr
      ensures Valid() && kind == old(kind) && repr == old(repr) + elements[i].repr
      ensures value == V.Put(old(value), Index(i), elements[i].value)
    {
      value, repr := V.Arr(value.slots[i := Some(elements[i].value)]), repr + elements[i].repr;
      assert forall j :: 0 <= j < |elements| && elements[j] != null ==> Holds(elements[j]) && elements[j].Valid();
    }

    /** Go deeper: scan the payload in a slot. */
    method ScanSlotOnly(i: nat, newText: Option<string>, rest: Option<string>, how: How, leaf: Kind) returns (r: Fate)
      requires Valid() && kind.ARRAY? && i < |elements| && elements[i] != null
      modifies elements[i].repr, `value, `repr
      ensures fresh(repr - old(repr)) && old(elements[i].Valid()) && old(elements[i]).Stay()
        && V.At(old(value), Index(i)).Some?
      ensures After(V.Above(old(value), Index(i),
                              V.Scan(V.At(old(value), Index(i)).value, newText, rest, how, leaf)), r)
      decreases V.Size(rest), 2
    {
      var c := elements[i];
      r := c.Scan(newText, rest, how, leaf);
      if r == Loss {
        assert elements[i] == c && !ValidArray();
        return;
      }
      assert forall j :: 0 <= j < |elements| && j != i && elements[j] != null ==>
        elements[j].repr == old(elements[j].repr) && elements[j].value == old(elements[j].value);
      assert forall j :: 0 <= j < |elements| && j != i && elements[j] != null ==>
        elements[j].Valid() && elements[j].repr !! c.repr;
      FollowSlot(i);
    }

    method ScanSlot(i: nat, newText: Option<string>, rest: Option<string>, how: How, leaf: Kind) returns (r: Fate)
      requires Valid() && kind.ARRAY? && i < |elements| && elements[i] != null
      modifies repr
      ensures fresh(repr - old(repr)) && V.At(old(value), Index(i)).Some? && Stay()
      ensures After(V.Above(old(value), Index(i),
                              V.Scan(V.At(old(value), Index(i)).value, newText, rest, how, leaf)), r)
      decreases V.Size(rest), 3
    {
      hide V.Scan, V.Above, V.At;
      ghost var c := Below(Index(i));
      r := ScanSlotOnly(i, newText, rest, how, leaf);
      assert elements == old(elements) && kind == old(kind);
      if r != Loss {
        assert Valid();
        forall loc | old(Part(loc)) != null
          ensures Part(loc) == old(Part(loc))
        {
          if loc != [] {
            assert Below(loc[0]) == old(Below(loc[0]));
          }
        }
      }
    }

    /** The index and the rest of the path that scan cuts off. */
    method SplitIndex(path: string, size: nat) returns (h: Head)
      ensures h == ScanHead(path, size)
    {
      if path == "" || path[0] != DELIM_ARRAY {
        return Bad;
      }
      NextMeans(path, 0);
      var next := NextElement(Some(path));
      if next < 0 {
        return Bad;
      }
      var index := size;
      if path[1] != SPACER {
        var number := Strtoul(path[1..]);
        if number.None? {
          return Bad;
        }
        index := number.value.0;
      }
      return Head(Index(index), if next == 0 then None else Some(path[next..]));
    }

    /** Make an empty payload of a given type in a slot where there is none. */
    method CreateSlot(i: nat, kind: Kind)
      requires Valid() && this.kind.ARRAY? && !kind.GONE? && (i < |elements| ==> elements[i] == null)
      modifies this
      ensures Valid() && this.kind == old(this.kind) && fresh(repr - old(repr)) && old(repr) <= repr
      ensures i < |elements| && elements[i] != null && value == V.Put(old(value), Index(i), V.Setup(kind))
      ensures V.At(value, Index(i)) == Some(V.Setup(kind)) && Stay()
    {
      Grow(i + 1);
      var ty := new Payload(kind);
      Fill(i, ty);
      forall loc | old(Part(loc)) != null
        ensures Part(loc) == old(Part(loc))
      {
        if loc != [] {
          assert Below(loc[0]) == old(Below(loc[0]));
        }
      }
    }

    /** The storage of the elements is freed or overrun: nothing can be said of the payload any more. */
    method Lose()
      modifies `lost
      ensures !Valid()
    {
      lost := true;
    }

    /** Scan the payload in a slot, made first if it is not there and may be. The new size of an array is computed in an
      * unsigned int; when that wraps, realloc is asked for less than there is to be, and what follows is lost. */
    method EnterSlot(i: nat, newText: Option<string>, rest: Option<string>, how: How, leaf: Kind) returns (r: Fate)
      requires Valid() && kind.ARRAY?
      modifies repr
      ensures After(V.Onward(old(value), Index(i), newText, rest, how, leaf), r) && Stay() && fresh(repr - old(repr))
      decreases V.Size(rest), 4
    {
      hide V.Scan, V.Put, V.Above, ValidTree, Part, Below;
      if i >= |elements| || elements[i] == null {
        if how.NoCreate? || leaf.GONE? {
          return Failure;
        }
        if i >= |elements| && WrappedSize(i) <= i {
          Lose();
          return Loss;
        }
        var infer := V.Inferred(rest, leaf);
        CreateSlot(i, infer);
        V.AboveTwice(old(value), Index(i), V.Setup(infer), V.Scan(V.Setup(infer), newText, rest, how, leaf));
      }
      r := ScanSlot(i, newText, rest, how, leaf);
    }

    /** scan_array_vrbl_katcp */
    method ScanArray(newText: Option<string>, path: Option<string>, how: How, leaf: Kind) returns (r: Fate)
      requires Valid() && kind.ARRAY?
      modifies repr
      ensures After(V.Scan(old(value), newText, path, how, leaf), r) && Stay() && fresh(repr - old(repr))
      decreases V.Size(path), 0
    {
      if path.None? {
        return if newText.None? then Success else Failure;
      }
      V.ScanStep(value, newText, path.value, how, leaf);
      var h := SplitIndex(path.value, |elements|);
      if h.Bad? {
        return Failure;
      }
      HeadSeg(path.value, |elements|);
      RestShorter(path.value, |elements|);
      assert h == V.SegHead(value, path.value);
      hide V.Scan, ScanHead, V.SegHead, V.Onward;
      r := EnterSlot(h.seg.i, newText, h.rest, how, leaf);
    }

    /** The table of operations, indexed by the type of the payload. */
    method Scan(newText: Option<string>, path: Option<string>, how: How, leaf: Kind) returns (r: Fate)
      requires Valid()
      modifies repr
      ensures After(V.Scan(old(value), newText, path, how, leaf), r) && Stay() && fresh(repr - old(repr))
      decreases V.Size(path), 1
    {
      hide V.Scan;
      match kind
      case STRING => r := ScanString(newText, path, how, leaf);
      case TREE => r := ScanTree(newText, path, how, leaf);
      case ARRAY => r := ScanArray(newText, path, how, leaf);
      case GONE => assert false;
    }

    // ---- element ----

    /** The index and the rest of the path that element and excise cut off: a letter after the number is an error. */
    method ReadIndex(path: string) returns (h: Head)
      ensures h == ArrayHead(path)
    {
      if path == "" || path[0] != DELIM_ARRAY {
        return Bad;
      }
      NextMeans(path, 0);
      var next := NextElement(Some(path));
      if next < 0 {
        return Bad;
      }
      var number := Strtoul(path[1..]);
      if number.None? {
        return Bad;
      }
      var end := 1 + number.value.1;
      if end < |path| && Alpha(path[end]) {
        return Bad;
      }
      return Head(Index(number.value.0), if next == 0 then None else Some(path[next..]));
    }

    /** element_string_vrbl_katcp, element_tree_vrbl_katcp and element_array_vrbl_katcp */
    method Element(path: Option<string>) returns (r: Payload?)
      requires Valid()
      ensures r == null <==> V.Element(value, path).None?
      ensures r != null ==> r in repr && r.Valid() && Some(r.value) == V.Element(value, path)
      ensures r == if Resolve(path).None? then null else Part(Resolve(path).value)
      decreases V.Size(path)
    {
      if path.None? || path.value == "" {
        return this;
      }
      RestShorter(path.value, 0);
      match kind
      case STRING => return null;
      case TREE =>
        var h := SplitKey(path.value);
        if h.Bad? || h.seg.name !in tree {
          return null;
        }
        r := tree[h.seg.name].Element(h.rest);
      case ARRAY =>
        HeadSeg(path.value, 0);
        var h := ReadIndex(path.value);
        if h.Bad? || h.seg.i >= |elements| || elements[h.seg.i] == null {
          return null;
        }
        r := elements[h.seg.i].Element(h.rest);
      case GONE => assert false;
    }

    // ---- excise ----

    method DropField(key: string)
      requires Valid() && kind.TREE? && key in tree
      modifies `tree, `value
      ensures Remain() && kind == old(kind) && repr == old(repr)
      ensures old(value).Tree? && value == V.Tree(old(value).fields - {key})
    {
      Opened();
      hide Valid;
      tree, value := tree - {key}, V.Tree(value.fields - {key});
      Closed();
      forall loc | Part(loc) != null
        ensures Part(loc) == old(Part(loc))
      {
        if loc != [] {
          assert Below(loc[0]) == old(Below(loc[0]));
        }
      }
    }

    method DropSlot(i: nat)
      requires Valid() && kind.ARRAY? && i < |elements|
      modifies `elements, `value
      ensures Remain() && kind == old(kind) && repr == old(repr) && old(value).Arr? && i < |old(value).slots|
      ensures value == V.Arr(old(value).slots[i := None])
    {
      elements, value := elements[i := null], V.Arr(value.slots[i := None]);
      assert ValidArray();
      forall loc | Part(loc) != null
        ensures Part(loc) == old(Part(loc))
      {
        if loc != [] {
          assert Below(loc[0]) == old(Below(loc[0]));
        }
      }
    }

    method ExciseFieldOnly(key: string, rest: string, relax: bool) returns (ok: bool)
      requires Valid() && kind.TREE? && key in tree && rest != ""
      modifies tree[key].repr, `value, `repr
      ensures Valid() && repr == old(repr) && kind == old(kind) && old(tree[key].Valid()) && old(tree[key]).Remain()
      ensures old(value).Tree? && key in old(value).fields
      ensures var r := V.Excise(old(value).fields[key], rest, relax);
        ok == r.1 && value == V.Put(old(value), Key(key), r.0)
      decreases |rest|, 2
    {
      var c := tree[key];
      ok := c.Excise(rest, relax);
      assert forall k :: k in tree && k != key ==>
        tree[k].repr == old(tree[k].repr) && tree[k].value == old(tree[k].value);
      assert forall k :: k in tree && k != key ==> tree[k].Valid() && tree[k].repr !! c.repr;
      FollowField(key);
    }

    method ExciseField(key: string, rest: string, relax: bool) returns (ok: bool)
      requires Valid() && kind.TREE? && key in tree && rest != ""
      modifies repr
      ensures Remain() && repr == old(repr) && kind == old(kind) && V.At(old(value), Key(key)).Some?
      ensures var r := V.Excise(V.At(old(value), Key(key)).value, rest, relax);
        ok == r.1 && value == V.Put(old(value), Key(key), r.0)
      decreases |rest|, 3
    {
      hide V.Excise, V.Put;
      ghost var c := Below(Key(key));
      ok := ExciseFieldOnly(key, rest, relax);
      assert tree == old(tree) && kind == old(kind) && Valid();
      forall loc | Part(loc) != null
        ensures Part(loc) == old(Part(loc))
      {
        if loc != [] {
          assert Below(loc[0]) == old(Below(loc[0]));
        }
      }
    }

    method ExciseSlotOnly(i: nat, rest: string, relax: bool) returns (ok: bool)
      requires Valid() && kind.ARRAY? && i < |elements| && elements[i] != null && rest != ""
      modifies elements[i].repr, `value, `repr
      ensures Valid() && repr == old(repr) && kind == old(kind) && old(elements[i].Valid()) && old(elements[i]).Remain()
      ensures V.At(old(value), Index(i)).Some?
      ensures var r := V.Excise(V.At(old(value), Index(i)).value, rest, relax);
        ok == r.1 && value == V.Put(old(value), Index(i), r.0)
      decreases |rest|, 2
    {
      var c := elements[i];
      ok := c.Excise(rest, relax);
      assert forall j :: 0 <= j < |elements| && j != i && elements[j] != null ==>
        elements[j].repr == old(elements[j].repr) && elements[j].value == old(elements[j].value);
      assert forall j :: 0 <= j < |elements| && j != i && elements[j] != null ==>
        elements[j].Valid() && elements[j].repr !! c.repr;
      FollowSlot(i);
    }

    method ExciseSlot(i: nat, rest: string, relax: bool) returns (ok: bool)
      requires Valid() && kind.ARRAY? && i < |elements| && elements[i] != null && rest != ""
      modifies repr
      ensures Remain() && repr == old(repr) && kind == old(kind) && V.At(old(value), Index(i)).Some?
      ensures var r := V.Excise(V.At(old(value), Index(i)).value, rest, relax);
        ok == r.1 && value == V.Put(old(value), Index(i), r.0)
      decreases |rest|, 3
    {
      hide V.Excise, V.Put;
      ghost var c := Below(Index(i));
      ok := ExciseSlotOnly(i, rest, relax);
      assert elements == old(elements) && kind == old(kind) && Valid();
      forall loc | Part(loc) != null
        ensures Part(loc) == old(Part(loc))
      {
        if loc != [] {
          assert Below(loc[0]) == old(Below(loc[0]));
        }
      }
    }

    method ExciseTree(path: string, relax: bool) returns (ok: bool)
      requires Valid() && kind.TREE?
      modifies repr
      ensures Remain() && repr == old(repr) && kind == old(kind) && (value, ok) == V.Excise(old(value), path, relax)
      decreases |path|, 0
    {
      var h := SplitKey(path);
      if h.Bad? {
        return false;
      }
      HeadSeg(path, 0);
      RestShorter(path, 0);
      var key := h.seg.name;
      if key !in tree {
        return relax;
      }
      if h.rest.None? {
        DropField(key);
        return true;
      }
      ok := ExciseField(key, h.rest.value, relax);
    }

    method ExciseArray(path: string, relax: bool) returns (ok: bool)
      requires Valid() && kind.ARRAY?
      modifies repr
      ensures Remain() && repr == old(repr) && kind == old(kind) && (value, ok) == V.Excise(old(value), path, relax)
      decreases |path|, 0
    {
      HeadSeg(path, 0);
      RestShorter(path, 0);
      var h := ReadIndex(path);
      if h.Bad? {
        return false;
      }
      var index := h.seg.i;
      if index >= |elements| || elements[index] == null {
        return relax;
      }
      if h.rest.None? {
        DropSlot(index);
        return true;
      }
      ok := ExciseSlot(index, h.rest.value, relax);
    }

    /** excise_string_vrbl_katcp, excise_tree_vrbl_katcp and excise_array_vrbl_katcp, by type. */
    method Excise(path: string, relax: bool) returns (ok: bool)
      requires Valid()
      modifies repr
      ensures Remain() && repr == old(repr) && kind == old(kind) && (value, ok) == V.Excise(old(value), path, relax)
      decreases |path|, 1
    {
      match kind
      case STRING => ok := relax;
      case TREE => ok := ExciseTree(path, relax);
      case ARRAY => ok := ExciseArray(path, relax);
      case GONE => assert false;
    }

    // ---- foreach ----

    method ForeachField(key: string, path: string, visit: Visitor) returns (r: int, calls: seq<(string, string)>)
      requires Valid() && kind.TREE? && key in tree
      ensures value.Tree? && key in value.fields && calls == Calls(value.fields[key], path)
      ensures r == Answer(value.fields[key], path, visit)
      decreases repr, 0
    {
      hide Calls, Answer;
      r, calls := tree[key].Foreach(path, visit);
    }

    /** The loop over the keys of a map, in the order of the tree. */
    method ForeachFields(keys: seq<string>, path: string, visit: Visitor)
      returns (failed: bool, calls: seq<(string, string)>)
      requires Valid() && kind.TREE? && (forall k :: k in keys ==> k in tree)
      ensures value.Tree? && (forall k :: k in keys ==> k in value.fields)
      ensures calls == FieldCalls(value, keys, path) && (failed <==> FieldsFail(value, keys, path, visit))
      decreases repr, 1
    {
      assert value.Tree? && value.fields.Keys == tree.Keys;
      failed, calls := false, [];
      hide Valid;
      assert keys[0..] == keys && calls + FieldCalls(value, keys, path) == FieldCalls(value, keys, path);
      for i := 0 to |keys|
        invariant calls + FieldCalls(value, keys[i..], path) == FieldCalls(value, keys, path)
        invariant failed || FieldsFail(value, keys[i..], path, visit) <==> FieldsFail(value, keys, path, visit)
      {
        FieldTurn(value, keys, i, path, calls);
        FailTurn(value, keys, i, path, visit);
        hide *;
        var a, more := ForeachField(keys[i], path + Short(Key(keys[i])), visit);
        calls, failed := calls + more, failed || a < 0;
      }
      assert keys[|keys|..] == [] && calls + [] == calls;
    }

    method ForeachTree(path: string, visit: Visitor) returns (r: int, calls: seq<(string, string)>)
      requires Valid() && kind.TREE?
      ensures calls == Calls(value, path) && r == Answer(value, path, visit)
      decreases repr, 2
    {
      SortedKeys(tree.Keys);
      var keys := Sorted(tree.Keys);
      assert value.Tree? && value.fields.Keys == tree.Keys;
      hide Valid, Sorted, FieldCalls, FieldsFail;
      var failed;
      failed, calls := ForeachFields(keys, path, visit);
      r := if failed then -1 else 0;
    }

    method ForeachSlot(i: nat, path: string, visit: Visitor) returns (r: int, calls: seq<(string, string)>)
      requires Valid() && kind.ARRAY? && i < |elements|
      ensures value.Arr? && |value.slots| == |elements|
      ensures calls == if value.slots[i].Some? then Calls(value.slots[i].value, path) else []
      ensures r == if value.slots[i].Some? then Answer(value.slots[i].value, path, visit) else 0
      decreases repr, 0
    {
      hide Calls, Answer;
      r, calls := 0, [];
      if elements[i] != null {
        r, calls := elements[i].Foreach(path, visit);
      }
    }

    method ForeachArray(path: string, visit: Visitor) returns (r: int, calls: seq<(string, string)>)
      requires Valid() && kind.ARRAY?
      ensures calls == Calls(value, path) && r == Answer(value, path, visit)
      decreases repr, 1
    {
      r, calls := 0, [];
      assert calls + SlotCalls(value, 0, path) == SlotCalls(value, 0, path);
      assert value.Arr? && |value.slots| == |elements|;
      hide Valid;
      for i := 0 to |elements|
        invariant calls + SlotCalls(value, i, path) == SlotCalls(value, 0, path)
        invariant r <= 0 && Latest(r, SlotAnswer(value, i, path, visit)) == SlotAnswer(value, 0, path, visit)
      {
        SlotTurn(value, i, path, calls);
        assert SlotAnswer(value, i, path, visit) == Latest(
          if value.slots[i].Some? then Answer(value.slots[i].value, path + Short(Index(i)), visit) else 0,
          SlotAnswer(value, i + 1, path, visit));
        hide SlotCalls, Calls, SlotAnswer, Answer;
        var a, more := ForeachSlot(i, path + Short(Index(i)), visit);
        calls := calls + more;
        if a < 0 {
          r := a;
        }
      }
      assert calls + [] == calls;
    }

    /** foreach_string_vrbl_katcp, foreach_tree_vrbl_katcp and foreach_array_vrbl_katcp: what they return, and the calls
      * to the visitor. */
    method Foreach(path: string, visit: Visitor) returns (r: int, calls: seq<(string, string)>)
      requires Valid()
      ensures calls == Calls(value, path) && r == Answer(value, path, visit)
      decreases repr, 3
    {
      match kind
      case STRING =>
        if text.None? {
          return -1, [];
        }
        return visit(path, text.value), [(path, text.value)];
      case TREE => r, calls := ForeachTree(path, visit);
      case ARRAY => r, calls := ForeachArray(path, visit);
      case GONE => assert false;
    }
  }
}
