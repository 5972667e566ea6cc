/** Enumerating a composite variable: every string once, under a path that leads back to it. */
module VrblWalk {
  import opened CString
  import opened Decimal
  import opened Options
  import opened VrblPath
  import opened VrblValue
  import opened VrblLaws

  /** What scanning keeps: names that paths can spell, and arrays that an unsigned int can count. */
  predicate Sane(p: Pay) {
    match p
    case Text(_) => true
    case Tree(m) => forall k :: k in m ==> Plain(k) && Sane(m[k])
    case Arr(s) => |s| < UINT && forall i :: 0 <= i < |s| && s[i].Some? ==> Sane(s[i].value)
  }

  lemma {:induction false} ScanSane(p: Pay, text: Option<string>, path: Option<string>, how: How, leaf: Kind)
    requires Sane(p)
    ensures var r := Scan(p, text, path, how, leaf); r.Scanned? ==> Sane(r.value)
    decreases Size(path)
  {
    if !p.Text? && path.Some? && SegHead(p, path.value).Head? {
      var h := SegHead(p, path.value);
      var c := Child(p, h.seg, h.rest, how, leaf);
      if c.Some? && !Wraps(p, h.seg, how, leaf) {
        var r := Scan(c.value, text, h.rest, how, leaf);
        ScanDown(p, text, path.value, how, leaf);
        HeadSeg(path.value, if p.Arr? then |p.slots| else 0);
        hide Sane;
        assert if h.seg.Key? then Plain(h.seg.name) else p.Arr? && (h.seg.i < |p.slots| || h.seg.i + 1 < UINT);
        hide *;
        ChildSane(p, h.seg, c.value);
        ScanSane(c.value, text, h.rest, how, leaf);
        if r.Scanned? {
          PutSane(p, h.seg, r.value);
        }
      }
    }
  }

  lemma ChildSane(p: Pay, seg: Seg, c: Pay)
    requires Sane(p) && (At(p, seg) == Some(c) || Blank(c))
    ensures Sane(c)
  {
  }

  lemma PutSane(p: Pay, seg: Seg, c: Pay)
    requires Sane(p) && Sane(c) && Fits(p, seg)
    requires if seg.Key? then Plain(seg.name) else p.Arr? && (seg.i < |p.slots| || seg.i + 1 < UINT)
    ensures Sane(Put(p, seg, c))
  {
    if p.Arr? {
      var g := Grown(p.slots, seg.i + 1)[seg.i := Some(c)];
      forall i | 0 <= i < |g| && g[i].Some?
        ensures Sane(g[i].value)
      {
        assert i != seg.i ==> i < |p.slots| && g[i] == p.slots[i];
      }
    }
  }

  lemma {:induction false} ExciseSane(p: Pay, path: string, relax: bool)
    requires Sane(p) && path != ""
    ensures Sane(Excise(p, path, relax).0)
    decreases |path|
  {
    var h := ReadHead(path);
    RestShorter(path, 0);
    HeadSeg(path, 0);
    if h.Head? && At(p, h.seg).Some? && h.rest.Some? {
      ExciseStep(p, path, relax);
      ExciseSane(At(p, h.seg).value, h.rest.value, relax);
      var c := Excise(At(p, h.seg).value, h.rest.value, relax).0;
      assert p.Arr? ==> h.seg.i < |p.slots|;
      if h.seg.Key? {
        PutSane(p, h.seg, c);
      } else {
        assert Grown(p.slots, h.seg.i + 1) == p.slots;
      }
    }
  }

  // ---- foreach ----

  /** The suffix foreach prints for an index: what fits nine characters. */
  function Short(seg: Seg): string {
    match seg
    case Key(name) => [DELIM_TREE] + name
    case Index(i) => [DELIM_ARRAY] + if |Dec(i)| > 9 then Dec(i)[..9] else Dec(i)
  }

  function ShortPath(loc: seq<Seg>): string {
    if loc == [] then "" else Short(loc[0]) + ShortPath(loc[1..])
  }

  /** foreach_string, foreach_tree and foreach_array: the calls made, with the path and the string passed to each. */
  function Calls(p: Pay, path: string): seq<(string, string)>
    decreases p, 1, 0
  {
    match p
    case Text(text) => if text.None? then [] else [(path, text.value)]
    case Tree(m) => SortedKeys(m.Keys); FieldCalls(p, Sorted(m.Keys), path)
    case Arr(_) => SlotCalls(p, 0, path)
  }

  function FieldCalls(p: Pay, keys: seq<string>, path: string): seq<(string, string)>
    requires p.Tree? && forall k :: k in keys ==> k in p.fields
    decreases p, 0, |keys|
  {
    if keys == [] then []
    else Calls(p.fields[keys[0]], path + Short(Key(keys[0]))) + FieldCalls(p, keys[1..], path)
  }

  function SlotCalls(p: Pay, i: nat, path: string): seq<(string, string)>
    requires p.Arr? && i <= |p.slots|
    decreases p, 0, |p.slots| - i
  {
    if i == |p.slots| then []
    else
      (if p.slots[i].Some? then Calls(p.slots[i].value, path + Short(Index(i))) else []) + SlotCalls(p, i + 1, path)
  }

  /** One turn of the loop over the keys, and of that over the slots, with what has been called before. */
  lemma FieldTurn(p: Pay, keys: seq<string>, i: nat, path: string, before: seq<(string, string)>)
    requires p.Tree? && i < |keys| && forall k :: k in keys ==> k in p.fields
    ensures before + FieldCalls(p, keys[i..], path)
      == before + Calls(p.fields[keys[i]], path + Short(Key(keys[i]))) + FieldCalls(p, keys[i + 1..], path)
  {
    assert keys[i..][1..] == keys[i + 1..];
    Regroup(before, Calls(p.fields[keys[i]], path + Short(Key(keys[i]))), FieldCalls(p, keys[i + 1..], path));
  }

  lemma SlotTurn(p: Pay, i: nat, path: string, before: seq<(string, string)>)
    requires p.Arr? && i < |p.slots|
    ensures before + SlotCalls(p, i, path) ==
      before + (if p.slots[i].Some? then Calls(p.slots[i].value, path + Short(Index(i))) else [])
        + SlotCalls(p, i + 1, path)
  {
    Regroup(before, if p.slots[i].Some? then Calls(p.slots[i].value, path + Short(Index(i))) else [],
            SlotCalls(p, i + 1, path));
  }

  lemma Regroup<T>(a: seq<T>, b: seq<T>, c: seq<T>)
    ensures a + (b + c) == a + b + c
  {
  }

  // ---- what foreach returns ----

  type Visitor = (string, string) -> int

  /** The answer of the visitor for a string and -1 for a NULL one; for a map -1 if anything below it failed; for an
    * array the last failure. No failure stops the enumeration. */
  function Answer(p: Pay, path: string, visit: Visitor): int
    decreases p, 1, 0
  {
    match p
    case Text(text) => if text.None? then -1 else visit(path, text.value)
    case Tree(m) => SortedKeys(m.Keys); if FieldsFail(p, Sorted(m.Keys), path, visit) then -1 else 0
    case Arr(_) => SlotAnswer(p, 0, path, visit)
  }

  predicate FieldsFail(p: Pay, keys: seq<string>, path: string, visit: Visitor)
    requires p.Tree? && forall k :: k in keys ==> k in p.fields
    decreases p, 0, |keys|
  {
    keys != [] &&
    (Answer(p.fields[keys[0]], path + Short(Key(keys[0])), visit) < 0 || FieldsFail(p, keys[1..], path, visit))
  }

  lemma FailTurn(p: Pay, keys: seq<string>, i: nat, path: string, visit: Visitor)
    requires p.Tree? && i < |keys| && forall k :: k in keys ==> k in p.fields
    ensures FieldsFail(p, keys[i..], path, visit) <==>
      Answer(p.fields[keys[i]], path + Short(Key(keys[i])), visit) < 0 || FieldsFail(p, keys[i + 1..], path, visit)
  {
    assert keys[i..][1..] == keys[i + 1..];
  }

  function SlotAnswer(p: Pay, i: nat, path: string, visit: Visitor): (r: int)
    requires p.Arr? && i <= |p.slots|
    ensures r <= 0
    decreases p, 0, |p.slots| - i
  {
    if i == |p.slots| then 0
    else
      var here := if p.slots[i].Some? then Answer(p.slots[i].value, path + Short(Index(i)), visit) else 0;
      Latest(here, SlotAnswer(p, i + 1, path, visit))
  }

  /** The later of two answers, if it is a failure. */
  function Latest(a: int, b: int): int {
    if b < 0 then b else if a < 0 then a else 0
  }

  predicate Refused(calls: seq<(string, string)>, visit: Visitor) {
    exists c :: c in calls && visit(c.0, c.1) < 0
  }

  /** Somewhere in p there is a NULL string. */
  ghost predicate HasNull(p: Pay) {
    exists loc: seq<Seg> :: Leaf(p, loc) == Some(None)
  }

  lemma NullBelow(p: Pay, seg: Seg, c: Pay)
    requires At(p, seg) == Some(c) && HasNull(c)
    ensures HasNull(p)
  {
    var loc: seq<Seg> :| Leaf(c, loc) == Some(None);
    assert ([seg] + loc)[1..] == loc;
    assert Leaf(p, [seg] + loc) == Some(None);
  }

  lemma NullAbove(p: Pay) returns (seg: Seg)
    requires HasNull(p) && !p.Text?
    ensures At(p, seg).Some? && HasNull(At(p, seg).value)
  {
    var loc: seq<Seg> :| Leaf(p, loc) == Some(None);
    seg := loc[0];
    assert Leaf(At(p, seg).value, loc[1..]) == Some(None);
  }

  lemma RefusedConcat(a: seq<(string, string)>, b: seq<(string, string)>, visit: Visitor)
    ensures Refused(a + b, visit) <==> Refused(a, visit) || Refused(b, visit)
  {
    if Refused(a, visit) {
      var c :| c in a && visit(c.0, c.1) < 0;
      assert c in a + b;
    }
    if Refused(b, visit) {
      var c :| c in b && visit(c.0, c.1) < 0;
      assert c in a + b;
    }
  }

  /** An enumeration fails if, and only if, it meets a NULL string or the visitor fails for one of the others. */
  lemma {:induction false} AnswerMeans(p: Pay, path: string, visit: Visitor)
    ensures Answer(p, path, visit) < 0 <==> HasNull(p) || Refused(Calls(p, path), visit)
    decreases p, 1, 0
  {
    match p
    case Text(text) =>
      assert Leaf(p, []) == Some(text);
      assert forall loc: seq<Seg> :: loc != [] ==> Leaf(p, loc) == None;
      assert text.Some? ==> (path, text.value) in Calls(p, path);
    case Tree(m) =>
      SortedKeys(m.Keys);
      FieldsMean(p, Sorted(m.Keys), path, visit);
      if HasNull(p) {
        var seg := NullAbove(p);
        assert seg.name in Sorted(m.Keys) && HasNull(m[seg.name]);
      }
    case Arr(s) =>
      SlotsMean(p, 0, path, visit);
      if HasNull(p) {
        var seg := NullAbove(p);
        assert s[seg.i].Some? && HasNull(s[seg.i].value);
      }
  }

  lemma {:induction false} FieldsMean(p: Pay, keys: seq<string>, path: string, visit: Visitor)
    requires p.Tree? && forall k :: k in keys ==> k in p.fields
    ensures FieldsFail(p, keys, path, visit) ==> HasNull(p) || Refused(FieldCalls(p, keys, path), visit)
    ensures Refused(FieldCalls(p, keys, path), visit) || (exists k :: k in keys && HasNull(p.fields[k])) ==>
      FieldsFail(p, keys, path, visit)
    decreases p, 0, |keys|
  {
    if keys != [] {
      var k, c := keys[0], p.fields[keys[0]];
      AnswerMeans(c, path + Short(Key(k)), visit);
      FieldsMean(p, keys[1..], path, visit);
      RefusedConcat(Calls(c, path + Short(Key(k))), FieldCalls(p, keys[1..], path), visit);
      if HasNull(c) {
        NullBelow(p, Key(k), c);
      }
      assert forall x :: x in keys ==> x == k || x in keys[1..];
    }
  }

  lemma SlotTurned(p: Pay, i: nat, path: string, visit: Visitor)
    requires p.Arr? && i <= |p.slots|
    ensures i == |p.slots| ==> SlotAnswer(p, i, path, visit) == 0 && SlotCalls(p, i, path) == []
    ensures i < |p.slots| && p.slots[i].None? ==>
      SlotAnswer(p, i, path, visit) == SlotAnswer(p, i + 1, path, visit)
      && SlotCalls(p, i, path) == SlotCalls(p, i + 1, path)
    ensures i < |p.slots| && p.slots[i].Some? ==>
      var c, at := p.slots[i].value, path + Short(Index(i));
      SlotCalls(p, i, path) == Calls(c, at) + SlotCalls(p, i + 1, path)
      && (SlotAnswer(p, i, path, visit) < 0 <==> Answer(c, at, visit) < 0 || SlotAnswer(p, i + 1, path, visit) < 0)
  {
    if i < |p.slots| {
      assert [] + SlotCalls(p, i + 1, path) == SlotCalls(p, i + 1, path);
    }
  }

  lemma {:induction false} SlotsMean(p: Pay, i: nat, path: string, visit: Visitor)
    requires p.Arr? && i <= |p.slots|
    ensures SlotAnswer(p, i, path, visit) < 0 ==> HasNull(p) || Refused(SlotCalls(p, i, path), visit)
    ensures Refused(SlotCalls(p, i, path), visit) ==> SlotAnswer(p, i, path, visit) < 0
    ensures (exists j :: i <= j < |p.slots| && p.slots[j].Some? && HasNull(p.slots[j].value)) ==>
      SlotAnswer(p, i, path, visit) < 0
    decreases p, 0, |p.slots| - i
  {
    hide Calls, SlotCalls, Answer, SlotAnswer, HasNull;
    SlotTurned(p, i, path, visit);
    if i < |p.slots| {
      SlotsMean(p, i + 1, path, visit);
      if p.slots[i].Some? {
        var c := p.slots[i].value;
        AnswerMeans(c, path + Short(Index(i)), visit);
        RefusedConcat(Calls(c, path + Short(Index(i))), SlotCalls(p, i + 1, path), visit);
        if HasNull(c) {
          NullBelow(p, Index(i), c);
        }
      }
    }
  }

  /** An array answers with the failure of the last slot that fails. */
  lemma {:induction false} LastFailure(p: Pay, i: nat, path: string, visit: Visitor) returns (j: nat)
    requires p.Arr? && i <= |p.slots| && SlotAnswer(p, i, path, visit) < 0
    ensures i <= j < |p.slots| && p.slots[j].Some?
    ensures Answer(p.slots[j].value, path + Short(Index(j)), visit) == SlotAnswer(p, i, path, visit)
    ensures forall k :: j < k < |p.slots| && p.slots[k].Some? ==>
      Answer(p.slots[k].value, path + Short(Index(k)), visit) >= 0
    decreases |p.slots| - i
  {
    if SlotAnswer(p, i + 1, path, visit) < 0 {
      j := LastFailure(p, i + 1, path, visit);
    } else {
      j := i;
      NoFailure(p, i + 1, path, visit);
    }
  }

  lemma {:induction false} NoFailure(p: Pay, i: nat, path: string, visit: Visitor)
    requires p.Arr? && i <= |p.slots| && SlotAnswer(p, i, path, visit) >= 0
    ensures forall k :: i <= k < |p.slots| && p.slots[k].Some? ==>
      Answer(p.slots[k].value, path + Short(Index(k)), visit) >= 0
    decreases |p.slots| - i
  {
    if i < |p.slots| {
      NoFailure(p, i + 1, path, visit);
    }
  }

  /** What an enumeration of an array answers. */
  lemma ArrayAnswer(s: seq<Option<Pay>>, path: string, visit: Visitor)
    ensures var r := Answer(Arr(s), path, visit);
      if r >= 0 then
        r == 0 && forall k :: 0 <= k < |s| && s[k].Some? ==> Answer(s[k].value, path + Short(Index(k)), visit) >= 0
      else
        exists j :: 0 <= j < |s| && s[j].Some? && Answer(s[j].value, path + Short(Index(j)), visit) == r
          && forall k :: j < k < |s| && s[k].Some? ==> Answer(s[k].value, path + Short(Index(k)), visit) >= 0
  {
    if Answer(Arr(s), path, visit) < 0 {
      var j := LastFailure(Arr(s), 0, path, visit);
      assert s[j].Some? && Answer(s[j].value, path + Short(Index(j)), visit) == Answer(Arr(s), path, visit);
    } else {
      NoFailure(Arr(s), 0, path, visit);
    }
  }

  // ---- what foreach visits ----

  /** The strings of p that are not NULL, by location, in the order of the calls. */
  function Leaves(p: Pay): seq<(seq<Seg>, string)>
    decreases p, 1, 0
  {
    match p
    case Text(text) => if text.None? then [] else [([], text.value)]
    case Tree(m) => SortedKeys(m.Keys); FieldLeaves(p, Sorted(m.Keys))
    case Arr(_) => SlotLeaves(p, 0)
  }

  function FieldLeaves(p: Pay, keys: seq<string>): seq<(seq<Seg>, string)>
    requires p.Tree? && forall k :: k in keys ==> k in p.fields
    decreases p, 0, |keys|
  {
    if keys == [] then [] else Below(Key(keys[0]), Leaves(p.fields[keys[0]])) + FieldLeaves(p, keys[1..])
  }

  function SlotLeaves(p: Pay, i: nat): seq<(seq<Seg>, string)>
    requires p.Arr? && i <= |p.slots|
    decreases p, 0, |p.slots| - i
  {
    if i == |p.slots| then []
    else (if p.slots[i].Some? then Below(Index(i), Leaves(p.slots[i].value)) else []) + SlotLeaves(p, i + 1)
  }

  function Below(seg: Seg, leaves: seq<(seq<Seg>, string)>): (r: seq<(seq<Seg>, string)>)
    ensures |r| == |leaves| && forall i :: 0 <= i < |r| ==> r[i] == ([seg] + leaves[i].0, leaves[i].1)
  {
    if leaves == [] then [] else [([seg] + leaves[0].0, leaves[0].1)] + Below(seg, leaves[1..])
  }

  /** The calls are the strings, each under its printed location. */
  predicate Match(path: string, calls: seq<(string, string)>, leaves: seq<(seq<Seg>, string)>) {
    |calls| == |leaves| && forall i :: 0 <= i < |calls| ==> calls[i] == (path + ShortPath(leaves[i].0), leaves[i].1)
  }

  lemma ShortCons(path: string, seg: Seg, loc: seq<Seg>)
    ensures path + Short(seg) + ShortPath(loc) == path + ShortPath([seg] + loc)
  {
    assert ([seg] + loc)[1..] == loc;
    var a, b := Short(seg), ShortPath(loc);
    assert path + a + b == path + (a + b);
  }

  lemma MatchBelow(path: string, seg: Seg, calls: seq<(string, string)>, leaves: seq<(seq<Seg>, string)>)
    requires Match(path + Short(seg), calls, leaves)
    ensures Match(path, calls, Below(seg, leaves))
  {
    hide Short, ShortPath;
    forall i | 0 <= i < |calls|
      ensures calls[i] == (path + ShortPath(Below(seg, leaves)[i].0), leaves[i].1)
    {
      ShortCons(path, seg, leaves[i].0);
    }
  }

  lemma {:induction false} CallsMatch(p: Pay, path: string)
    ensures Match(path, Calls(p, path), Leaves(p))
    decreases p, 1, 0
  {
    match p
    case Text(text) => assert path + "" == path;
    case Tree(m) => SortedKeys(m.Keys); FieldsMatch(p, Sorted(m.Keys), path);
    case Arr(_) => SlotsMatch(p, 0, path);
  }

  lemma {:induction false} FieldsMatch(p: Pay, keys: seq<string>, path: string)
    requires p.Tree? && forall k :: k in keys ==> k in p.fields
    ensures Match(path, FieldCalls(p, keys, path), FieldLeaves(p, keys))
    decreases p, 0, |keys|
  {
    if keys != [] {
      CallsMatch(p.fields[keys[0]], path + Short(Key(keys[0])));
      MatchBelow(path, Key(keys[0]), Calls(p.fields[keys[0]], path + Short(Key(keys[0]))), Leaves(p.fields[keys[0]]));
      FieldsMatch(p, keys[1..], path);
    }
  }

  lemma {:induction false} SlotsMatch(p: Pay, i: nat, path: string)
    requires p.Arr? && i <= |p.slots|
    ensures Match(path, SlotCalls(p, i, path), SlotLeaves(p, i))
    decreases p, 0, |p.slots| - i
  {
    if i < |p.slots| {
      if p.slots[i].Some? {
        CallsMatch(p.slots[i].value, path + Short(Index(i)));
        MatchBelow(path, Index(i), Calls(p.slots[i].value, path + Short(Index(i))), Leaves(p.slots[i].value));
      }
      SlotsMatch(p, i + 1, path);
    }
  }

  // ---- every string exactly once ----

  predicate Once(leaves: seq<(seq<Seg>, string)>) {
    forall i, j :: 0 <= i < j < |leaves| ==> leaves[i].0 != leaves[j].0
  }

  /** The leaves are the strings that are not NULL, and no location comes twice. */
  lemma {:induction false} LeavesExact(p: Pay)
    ensures Once(Leaves(p))
    ensures forall loc: seq<Seg>, v: string :: (loc, v) in Leaves(p) <==> Leaf(p, loc) == Some(Some(v))
    decreases p, 1, 0
  {
    match p
    case Text(text) =>
    case Tree(m) =>
      SortedKeys(m.Keys);
      FieldsExact(p, Sorted(m.Keys));
      forall loc: seq<Seg>, v: string
        ensures (loc, v) in Leaves(p) <==> Leaf(p, loc) == Some(Some(v))
      {
      }
    case Arr(s) => SlotsExact(p, 0);
  }

  lemma {:induction false} FieldsExact(p: Pay, keys: seq<string>)
    requires p.Tree? && forall k :: k in keys ==> k in p.fields
    requires forall i, j :: 0 <= i < j < |keys| ==> Less(keys[i], keys[j])
    ensures Once(FieldLeaves(p, keys))
    ensures forall loc: seq<Seg>, v: string :: (loc, v) in FieldLeaves(p, keys) <==>
      loc != [] && loc[0].Key? && loc[0].name in keys && Leaf(p, loc) == Some(Some(v))
    decreases p, 0, |keys|
  {
    if keys != [] {
      var k := keys[0];
      LeavesExact(p.fields[k]);
      FieldsExact(p, keys[1..]);
      LessTotal(k, k);
      assert k !in keys[1..];
      Joined(p, Key(k), p.fields[k], FieldLeaves(p, keys[1..]));
    }
  }

  lemma SlotListed(p: Pay, i: nat)
    requires p.Arr? && i <= |p.slots|
    ensures SlotLeaves(p, i) ==
      if i == |p.slots| then []
      else if p.slots[i].None? then SlotLeaves(p, i + 1)
      else Below(Index(i), Leaves(p.slots[i].value)) + SlotLeaves(p, i + 1)
  {
    if i < |p.slots| {
      assert [] + SlotLeaves(p, i + 1) == SlotLeaves(p, i + 1);
    }
  }

  lemma {:induction false} SlotsExact(p: Pay, i: nat)
    requires p.Arr? && i <= |p.slots|
    ensures Once(SlotLeaves(p, i))
    ensures forall loc: seq<Seg>, v: string :: (loc, v) in SlotLeaves(p, i) <==>
      loc != [] && loc[0].Index? && loc[0].i >= i && Leaf(p, loc) == Some(Some(v))
    decreases p, 0, |p.slots| - i
  {
    hide Leaves, SlotLeaves, Below;
    SlotListed(p, i);
    if i < |p.slots| {
      SlotsExact(p, i + 1);
      if p.slots[i].Some? {
        LeavesExact(p.slots[i].value);
        Joined(p, Index(i), p.slots[i].value, SlotLeaves(p, i + 1));
      }
    }
  }

  lemma BelowExact(seg: Seg, leaves: seq<(seq<Seg>, string)>)
    requires Once(leaves)
    ensures Once(Below(seg, leaves))
    ensures forall loc: seq<Seg>, v: string :: (loc, v) in Below(seg, leaves) <==>
      loc != [] && loc[0] == seg && (loc[1..], v) in leaves
  {
    var b := Below(seg, leaves);
    forall i, j | 0 <= i < j < |b|
      ensures b[i].0 != b[j].0
    {
      assert b[i].0[1..] == leaves[i].0 && b[j].0[1..] == leaves[j].0;
    }
    forall loc: seq<Seg>, v: string
      ensures (loc, v) in b <==> loc != [] && loc[0] == seg && (loc[1..], v) in leaves
    {
      if (loc, v) in b {
        var i :| 0 <= i < |b| && b[i] == (loc, v);
        assert loc[1..] == leaves[i].0;
      }
      if loc != [] && loc[0] == seg && (loc[1..], v) in leaves {
        var i :| 0 <= i < |leaves| && leaves[i] == (loc[1..], v);
        assert [seg] + loc[1..] == loc;
        assert b[i] == (loc, v);
      }
    }
  }

  lemma OnceConcat(a: seq<(seq<Seg>, string)>, b: seq<(seq<Seg>, string)>)
    requires Once(a) && Once(b)
    requires forall i, j :: 0 <= i < |a| && 0 <= j < |b| ==> a[i].0 != b[j].0
    ensures Once(a + b)
  {
  }

  /** The leaves below one segment, followed by leaves elsewhere. */
  lemma Joined(p: Pay, seg: Seg, c: Pay, rest: seq<(seq<Seg>, string)>)
    requires At(p, seg) == Some(c) && Once(Leaves(c)) && Once(rest)
    requires forall loc: seq<Seg>, v: string :: (loc, v) in Leaves(c) <==> Leaf(c, loc) == Some(Some(v))
    requires forall i :: 0 <= i < |rest| ==> rest[i].0 != [] && rest[i].0[0] != seg
    ensures Once(Below(seg, Leaves(c)) + rest)
    ensures forall loc: seq<Seg>, v: string :: (loc, v) in Below(seg, Leaves(c)) + rest <==>
      (loc, v) in rest || (loc != [] && loc[0] == seg && Leaf(p, loc) == Some(Some(v)))
  {
    hide Leaves;
    var b := Below(seg, Leaves(c));
    BelowExact(seg, Leaves(c));
    OnceConcat(b, rest);
  }

  // ---- the order of the calls ----

  /** Names by their bytes, indices by number. */
  predicate SegBefore(a: Seg, b: Seg) {
    match (a, b)
    case (Key(m), Key(n)) => Precedes(m, n)
    case (Index(i), Index(j)) => i < j
    case _ => false
  }

  /** The segments decide where two locations first differ. */
  predicate LocBefore(a: seq<Seg>, b: seq<Seg>) {
    exists k :: 0 <= k < |a| && k < |b| && a[..k] == b[..k] && SegBefore(a[k], b[k])
  }

  predicate InOrder(leaves: seq<(seq<Seg>, string)>) {
    forall i, j :: 0 <= i < j < |leaves| ==> LocBefore(leaves[i].0, leaves[j].0)
  }

  lemma DownBefore(seg: Seg, x: seq<Seg>, y: seq<Seg>)
    requires LocBefore(x, y)
    ensures LocBefore([seg] + x, [seg] + y)
  {
    var k :| 0 <= k < |x| && k < |y| && x[..k] == y[..k] && SegBefore(x[k], y[k]);
    assert ([seg] + x)[..k + 1] == [seg] + x[..k] && ([seg] + y)[..k + 1] == [seg] + y[..k];
    assert ([seg] + x)[k + 1] == x[k] && ([seg] + y)[k + 1] == y[k];
  }

  lemma BelowOrder(seg: Seg, leaves: seq<(seq<Seg>, string)>)
    requires InOrder(leaves)
    ensures InOrder(Below(seg, leaves))
  {
    hide LocBefore, Below;
    var b := Below(seg, leaves);
    forall i, j | 0 <= i < j < |b|
      ensures LocBefore(b[i].0, b[j].0)
    {
      DownBefore(seg, leaves[i].0, leaves[j].0);
    }
  }

  lemma FirstBefore(a: seq<Seg>, b: seq<Seg>)
    requires a != [] && b != [] && SegBefore(a[0], b[0])
    ensures LocBefore(a, b)
  {
    assert a[..0] == b[..0];
  }

  lemma OrderConcat(a: seq<(seq<Seg>, string)>, b: seq<(seq<Seg>, string)>)
    requires InOrder(a) && InOrder(b)
    requires forall i, j :: 0 <= i < |a| && 0 <= j < |b| ==> LocBefore(a[i].0, b[j].0)
    ensures InOrder(a + b)
  {
    hide LocBefore;
  }

  /** The leaves are listed in the order of their locations: an enumeration visits a map in the order of its names and
    * an array in that of its indices, at every depth. */
  lemma {:induction false} LeavesInOrder(p: Pay)
    ensures InOrder(Leaves(p))
    decreases p, 1, 0
  {
    match p
    case Text(_) =>
    case Tree(m) =>
      SortedKeys(m.Keys);
      FieldsInOrder(p, Sorted(m.Keys));
    case Arr(_) => SlotsInOrder(p, 0);
  }

  lemma {:induction false} FieldsInOrder(p: Pay, keys: seq<string>)
    requires p.Tree? && forall k :: k in keys ==> k in p.fields
    requires forall i, j :: 0 <= i < j < |keys| ==> Less(keys[i], keys[j])
    ensures InOrder(FieldLeaves(p, keys))
    decreases p, 0, |keys|
  {
    if keys != [] {
      var k, rest := keys[0], FieldLeaves(p, keys[1..]);
      var here := Below(Key(k), Leaves(p.fields[k]));
      LeavesInOrder(p.fields[k]);
      FieldsInOrder(p, keys[1..]);
      FieldsExact(p, keys[1..]);
      BelowOrder(Key(k), Leaves(p.fields[k]));
      hide LocBefore, InOrder, Leaves;
      forall i, j | 0 <= i < |here| && 0 <= j < |rest|
        ensures LocBefore(here[i].0, rest[j].0)
      {
        assert (rest[j].0, rest[j].1) in rest;
        LessMeans(k, rest[j].0[0].name);
        FirstBefore(here[i].0, rest[j].0);
      }
      OrderConcat(here, rest);
    }
  }

  lemma {:induction false} SlotsInOrder(p: Pay, i: nat)
    requires p.Arr? && i <= |p.slots|
    ensures InOrder(SlotLeaves(p, i))
    decreases p, 0, |p.slots| - i
  {
    hide LocBefore, InOrder, Leaves, SlotLeaves, Leaf, Once, Below;
    SlotListed(p, i);
    if i == |p.slots| {
      NoLeaves();
    } else {
      SlotsInOrder(p, i + 1);
      if p.slots[i].Some? {
        LeavesInOrder(p.slots[i].value);
        SlotsExact(p, i + 1);
        SlotFirst(i, Leaves(p.slots[i].value), SlotLeaves(p, i + 1));
      }
    }
  }

  lemma NoLeaves()
    ensures InOrder([])
  {
  }

  lemma SlotFirst(i: nat, leaves: seq<(seq<Seg>, string)>, rest: seq<(seq<Seg>, string)>)
    requires InOrder(leaves) && InOrder(rest)
    requires forall loc: seq<Seg>, v: string :: (loc, v) in rest ==> loc != [] && loc[0].Index? && loc[0].i >= i + 1
    ensures InOrder(Below(Index(i), leaves) + rest)
  {
    var here := Below(Index(i), leaves);
    BelowOrder(Index(i), leaves);
    hide LocBefore, InOrder, Below;
    forall a, b | 0 <= a < |here| && 0 <= b < |rest|
      ensures LocBefore(here[a].0, rest[b].0)
    {
      assert (rest[b].0, rest[b].1) in rest;
      FirstBefore(here[a].0, rest[b].0);
    }
    OrderConcat(here, rest);
  }

  // ---- the printed path leads back ----

  const LONG: nat := 1_000_000_000

  /** Every index that could be printed in full. */
  predicate Printable(loc: seq<Seg>) {
    forall seg :: seg in loc && seg.Index? ==> seg.i < LONG
  }

  /** The location that the path printed by foreach names: from a thousand million on, an index loses its last digit. */
  function Shortened(loc: seq<Seg>): seq<Seg> {
    if loc == [] then []
    else [if loc[0].Index? && loc[0].i >= LONG then Index(loc[0].i / 10) else loc[0]] + Shortened(loc[1..])
  }

  lemma {:induction false} ShortPrint(loc: seq<Seg>)
    requires Writable(loc)
    ensures ShortPath(loc) == Print(Shortened(loc)) && Writable(Shortened(loc))
    ensures Shortened(loc) == loc <==> Printable(loc)
  {
    if loc != [] {
      assert loc[0] in loc && loc == [loc[0]] + loc[1..];
      assert Writable(loc[1..]);
      ShortPrint(loc[1..]);
      ShortSeg(loc[0]);
      assert Shortened(loc)[1..] == Shortened(loc[1..]);
      assert Printable(loc) <==> (loc[0].Index? ==> loc[0].i < LONG) && Printable(loc[1..]);
    }
  }

  lemma ShortSeg(seg: Seg)
    requires Writable([seg])
    ensures Short(seg) == PrintSeg(if seg.Index? && seg.i >= LONG then Index(seg.i / 10) else seg)
  {
    assert seg in [seg];
    if seg.Index? {
      NineDigits(seg.i);
      if seg.i >= LONG {
        LongIndex(seg.i);
      }
    }
  }

  lemma NineDigits(n: nat)
    ensures |Dec(n)| <= 9 <==> n < LONG
  {
    DecLength(n, 9);
    assert Pow10(9) == LONG by {
      assert Pow10(3) == 1000 && Pow10(6) == 1000 * Pow10(3) && Pow10(9) == 1000 * Pow10(6);
    }
  }

  lemma {:induction false} LookupWritable(p: Pay, loc: seq<Seg>)
    requires Sane(p) && Lookup(p, loc).Some?
    ensures Writable(loc)
    decreases |loc|
  {
    if loc != [] {
      LookupWritable(At(p, loc[0]).value, loc[1..]);
      assert loc == [loc[0]] + loc[1..];
    }
  }

  /** The round trip of enumeration: the calls of foreach are exactly the strings of the variable that are not NULL,
    * each once. The path of each leads element back to that string if, and only if, no index of it was too long to
    * print; otherwise it names the location that has those indices without their last digits. */
  lemma ForeachRoundTrip(p: Pay, loc: seq<Seg>, v: string)
    requires Sane(p)
    ensures Match("", Calls(p, ""), Leaves(p)) && Once(Leaves(p))
    ensures (loc, v) in Leaves(p) <==> Leaf(p, loc) == Some(Some(v))
    ensures (loc, v) in Leaves(p) ==>
      && (ShortPath(loc), v) in Calls(p, "") && Resolve(Some(ShortPath(loc))) == Some(Shortened(loc))
      && (Shortened(loc) == loc <==> Printable(loc))
      && (Printable(loc) ==> Element(p, Some(ShortPath(loc))) == Some(Text(Some(v))))
  {
    CallsMatch(p, "");
    LeavesExact(p);
    if (loc, v) in Leaves(p) {
      var i :| 0 <= i < |Leaves(p)| && Leaves(p)[i] == (loc, v);
      assert Calls(p, "")[i] == ("" + ShortPath(loc), v);
      assert "" + ShortPath(loc) == ShortPath(loc);
      LookupWritable(p, loc);
      ShortPrint(loc);
      PrintResolves(Shortened(loc));
      ElementResolves(p, Some(ShortPath(loc)));
    }
  }

  lemma LongIndex(i: nat)
    requires LONG <= i < UINT
    ensures Short(Index(i)) == PrintSeg(Index(i / 10))
  {
    NineDigits(i);
    NineDigits(i / 10);
    DecLength(i, 10);
    assert Pow10(10) == 10 * Pow10(9);
    assert Pow10(9) == LONG by {
      assert Pow10(3) == 1000 && Pow10(6) == 1000 * Pow10(3) && Pow10(9) == 1000 * Pow10(6);
    }
    assert Dec(i)[..|Dec(i)| - 1] == Dec(i / 10);
  }
}
