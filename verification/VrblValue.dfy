/** Composite variables as values: what scan, element and excise mean, and what a scan does to every leaf. */
module VrblValue {
  import opened Options
  import opened VrblPath

  /** A payload: a string that may be NULL, a map, or an array with empty slots. */
  datatype Pay = Text(text: Option<string>) | Tree(fields: map<string, Pay>) | Arr(slots: seq<Option<Pay>>)

  /** The p_type of a payload; GONE is what an unreadable or absent path infers. */
  datatype Kind = STRING | TREE | ARRAY | GONE

  datatype How = NoCreate | MayCreate | MustCreate

  /** setup_vrbl_katcp */
  function Setup(kind: Kind): Pay
    requires !kind.GONE?
  {
    match kind
    case STRING => Text(None)
    case TREE => Tree(map[])
    case ARRAY => Arr([])
  }

  /** infer_type_path_vrbl */
  function Infer(path: Option<string>): Kind {
    if path.None? || path.value == "" then GONE
    else if path.value[0] == DELIM_TREE then TREE
    else if path.value[0] == DELIM_ARRAY then ARRAY
    else GONE
  }

  /** The type of an element that scan creates on its way: what the rest of the path asks for, else the leaf type. */
  function Inferred(rest: Option<string>, leaf: Kind): Kind {
    if Infer(rest).GONE? then leaf else Infer(rest)
  }

  function Size(path: Option<string>): nat {
    if path.None? then 0 else |path.value| + 1
  }

  predicate Creates(how: How, leaf: Kind) {
    !how.NoCreate? && !leaf.GONE?
  }

  function Grown(slots: seq<Option<Pay>>, size: nat): seq<Option<Pay>> {
    if |slots| >= size then slots else slots + seq(size - |slots|, _ => None)
  }

  /** The payload one segment down. */
  function At(p: Pay, seg: Seg): Option<Pay> {
    match p
    case Text(_) => None
    case Tree(m) => if seg.Key? && seg.name in m then Some(m[seg.name]) else None
    case Arr(s) => if seg.Index? && seg.i < |s| then s[seg.i] else None
  }

  /** The payload that scan goes on with at a segment: the one there, or a new one if it may create it. */
  function Child(p: Pay, seg: Seg, rest: Option<string>, how: How, leaf: Kind): Option<Pay> {
    var there := At(p, seg);
    if there.Some? then there
    else if Creates(how, leaf) then Some(Setup(Inferred(rest, leaf)))
    else None
  }

  /** An array is to grow to a size that its counter cannot hold: the size wraps around, to zero for the last index, and
    * the storage of the elements is freed or overrun. */
  predicate Wraps(p: Pay, seg: Seg, how: How, leaf: Kind) {
    p.Arr? && seg.Index? && |p.slots| <= seg.i && seg.i + 1 >= UINT && Creates(how, leaf)
  }

  function SegHead(p: Pay, path: string): Head {
    match p
    case Text(_) => Bad
    case Tree(_) => TreeHead(path)
    case Arr(slots) => ScanHead(path, |slots|)
  }

  /** p with the payload at one segment put in place, the array grown if need be. */
  function Put(p: Pay, seg: Seg, c: Pay): Pay {
    match p
    case Text(_) => p
    case Tree(m) => if seg.Key? then Tree(m[seg.name := c]) else p
    case Arr(s) => if seg.Index? then Arr(Grown(s, seg.i + 1)[seg.i := Some(c)]) else p
  }

  /** What a scan leaves behind: a payload and whether it succeeded, or memory of which nothing can be said any more. */
  datatype Outcome = Scanned(value: Pay, ok: bool) | Corrupted

  /** The outcome for p when a scan has gone on with a payload at a segment. */
  function Above(p: Pay, seg: Seg, below: Outcome): Outcome {
    if below.Corrupted? then Corrupted else Scanned(Put(p, seg, below.value), below.ok)
  }

  /** scan_string_vrbl_katcp, scan_tree_vrbl_katcp and scan_array_vrbl_katcp. A scan that fails deep down keeps what it
    * has created on the way. */
  function Scan(p: Pay, text: Option<string>, path: Option<string>, how: How, leaf: Kind): Outcome
    decreases Size(path)
  {
    if p.Text? then
      if (path.Some? && path.value != "") || (how.MustCreate? && p.text.Some?) then Scanned(p, false)
      else Scanned(Text(text), true)
    else if path.None? then Scanned(p, text.None?)
    else
      var h := SegHead(p, path.value);
      if h.Bad? then Scanned(p, false)
      else if Wraps(p, h.seg, how, leaf) then Corrupted
      else
        var c := Child(p, h.seg, h.rest, how, leaf);
        if c.None? then Scanned(p, false)
        else
          RestShorter(path.value, if p.Arr? then |p.slots| else 0);
          Above(p, h.seg, Scan(c.value, text, h.rest, how, leaf))
  }

  /** A scan that has cut off its first segment. */
  function Onward(p: Pay, seg: Seg, text: Option<string>, rest: Option<string>, how: How, leaf: Kind): Outcome {
    var c := Child(p, seg, rest, how, leaf);
    if Wraps(p, seg, how, leaf) then Corrupted
    else if c.None? then Scanned(p, false)
    else Above(p, seg, Scan(c.value, text, rest, how, leaf))
  }

  /** One step of a scan down a map or an array. */
  lemma ScanStep(p: Pay, text: Option<string>, path: string, how: How, leaf: Kind)
    requires !p.Text?
    ensures var h := SegHead(p, path);
      Scan(p, text, Some(path), how, leaf) ==
        if h.Bad? then Scanned(p, false) else Onward(p, h.seg, text, h.rest, how, leaf)
  {
  }

  /** Some array on the way of a scan is asked to grow beyond its counter; no matter what text is stored. */
  predicate Overruns(p: Pay, path: Option<string>, how: How, leaf: Kind)
    decreases Size(path)
  {
    if p.Text? || path.None? then false
    else
      var h := SegHead(p, path.value);
      RestShorter(path.value, if p.Arr? then |p.slots| else 0);
      h.Head? && (Wraps(p, h.seg, how, leaf) ||
        var c := Child(p, h.seg, h.rest, how, leaf); c.Some? && Overruns(c.value, h.rest, how, leaf))
  }

  lemma {:induction false} ScanOverruns(p: Pay, text: Option<string>, path: Option<string>, how: How, leaf: Kind)
    ensures Scan(p, text, path, how, leaf).Corrupted? <==> Overruns(p, path, how, leaf)
    decreases Size(path)
  {
    if !p.Text? && path.Some? && SegHead(p, path.value).Head? {
      var h := SegHead(p, path.value);
      var c := Child(p, h.seg, h.rest, how, leaf);
      RestShorter(path.value, if p.Arr? then |p.slots| else 0);
      if c.Some? {
        ScanOverruns(c.value, text, h.rest, how, leaf);
      }
    }
  }

  lemma AboveTwice(p: Pay, seg: Seg, a: Pay, r: Outcome)
    ensures Above(Put(p, seg, a), seg, r) == Above(p, seg, r)
  {
    if r.Scanned? {
      PutTwice(p, seg, a, r.value);
    }
  }

  lemma PutTwice(p: Pay, seg: Seg, a: Pay, b: Pay)
    ensures Put(Put(p, seg, a), seg, b) == Put(p, seg, b)
  {
    if p.Tree? && seg.Key? {
      assert p.fields[seg.name := a][seg.name := b] == p.fields[seg.name := b];
    }
    if p.Arr? && seg.Index? {
      var g := Grown(p.slots, seg.i + 1);
      assert Grown(g[seg.i := Some(a)], seg.i + 1) == g[seg.i := Some(a)];
      assert g[seg.i := Some(a)][seg.i := Some(b)] == g[seg.i := Some(b)];
    }
  }

  /** The location that a scan works on; it depends on the value because '-' appends. */
  function Target(p: Pay, path: Option<string>, leaf: Kind): seq<Seg>
    decreases Size(path)
  {
    if p.Text? || path.None? then []
    else
      var h := SegHead(p, path.value);
      if h.Bad? then []
      else
        RestShorter(path.value, if p.Arr? then |p.slots| else 0);
        var there := At(p, h.seg);
        var c := if there.Some? then there.value else if leaf.GONE? then Text(None) else Setup(Inferred(h.rest, leaf));
        [h.seg] + Target(c, h.rest, leaf)
  }

  /** The payload at a location. */
  function Lookup(p: Pay, loc: seq<Seg>): Option<Pay>
    decreases |loc|
  {
    if loc == [] then Some(p)
    else
      var c := At(p, loc[0]);
      if c.None? then None else Lookup(c.value, loc[1..])
  }

  /** The string at a location, NULL or not, if there is a string payload there. */
  function Leaf(p: Pay, loc: seq<Seg>): Option<Option<string>> {
    var q := Lookup(p, loc);
    if q.Some? && q.value.Text? then Some(q.value.text) else None
  }

  /** element_string_vrbl_katcp, element_tree_vrbl_katcp and element_array_vrbl_katcp */
  function Element(p: Pay, path: Option<string>): Option<Pay>
    decreases Size(path)
  {
    if path.None? || path.value == "" then Some(p)
    else
      RestShorter(path.value, 0);
      HeadSeg(path.value, 0);
      match p
      case Text(_) => None
      case Tree(m) =>
        var h := TreeHead(path.value);
        if h.Head? && h.seg.name in m then Element(m[h.seg.name], h.rest) else None
      case Arr(s) =>
        var h := ArrayHead(path.value);
        if h.Head? && h.seg.i < |s| && s[h.seg.i].Some? then Element(s[h.seg.i].value, h.rest) else None
  }

  /** excise_string_vrbl_katcp, excise_tree_vrbl_katcp and excise_array_vrbl_katcp: the payload afterwards and whether
    * the excision succeeded; `relax` lets it succeed where there is nothing to remove. */
  function Excise(p: Pay, path: string, relax: bool): (Pay, bool)
    decreases |path|
  {
    RestShorter(path, 0);
    HeadSeg(path, 0);
    match p
    case Text(_) => (p, relax)
    case Tree(m) =>
      var h := TreeHead(path);
      if h.Bad? then (p, false)
      else if h.seg.name !in m then (p, relax)
      else if h.rest.None? then (Tree(m - {h.seg.name}), true)
      else
        var r := Excise(m[h.seg.name], h.rest.value, relax);
        (Tree(m[h.seg.name := r.0]), r.1)
    case Arr(s) =>
      var h := ArrayHead(path);
      if h.Bad? then (p, false)
      else if h.seg.i >= |s| || s[h.seg.i].None? then (p, relax)
      else if h.rest.None? then (Arr(s[h.seg.i := None]), true)
      else
        var r := Excise(s[h.seg.i].value, h.rest.value, relax);
        (Arr(s[h.seg.i := Some(r.0)]), r.1)
  }

  // ---- set and get ----

  predicate Fits(p: Pay, seg: Seg) {
    (p.Tree? && seg.Key?) || (p.Arr? && seg.Index?)
  }

  lemma HeadFits(p: Pay, path: string)
    ensures SegHead(p, path).Head? ==> Fits(p, SegHead(p, path).seg)
    ensures var h := SegHead(p, path); h.Head? && h.rest.Some? ==> h.rest.value != "" && !Infer(h.rest).GONE?
  {
    HeadSeg(path, if p.Arr? then |p.slots| else 0);
    RestShorter(path, if p.Arr? then |p.slots| else 0);
  }

  lemma PutLookup(p: Pay, seg: Seg, c: Pay, loc: seq<Seg>)
    requires Fits(p, seg) && loc != []
    ensures Lookup(Put(p, seg, c), loc) == if loc[0] == seg then Lookup(c, loc[1..]) else Lookup(p, loc)
  {
  }

  /** A payload as setup_vrbl_katcp makes it. */
  predicate Blank(c: Pay) {
    c == Text(None) || c == Tree(map[]) || c == Arr([])
  }

  /** What a scan has done to the string at a location. */
  predicate LeafAfter(p: Pay, text: Option<string>, target: seq<Seg>, r: Outcome, loc: seq<Seg>) {
    r.Scanned? ==>
      && Leaf(r.value, loc) == (if r.ok && loc == target && Leaf(r.value, loc).Some? then Some(text) else Leaf(p, loc))
      && (r.ok && text.Some? ==> Leaf(r.value, target) == Some(text))
  }

  /** A successful scan stores the text at its target and changes no other string; a failed one changes no string. */
  lemma {:induction false} ScanLeaf(p: Pay, text: Option<string>, path: Option<string>, how: How, leaf: Kind,
                                    loc: seq<Seg>)
    ensures LeafAfter(p, text, Target(p, path, leaf), Scan(p, text, path, how, leaf), loc)
    decreases Size(path)
  {
    if !p.Text? && path.Some? && SegHead(p, path.value).Head? {
      var h := SegHead(p, path.value);
      var c := Child(p, h.seg, h.rest, how, leaf);
      if c.Some? && !Wraps(p, h.seg, how, leaf) {
        ScanDown(p, text, path.value, how, leaf);
        hide *;
        var r := Scan(c.value, text, h.rest, how, leaf);
        ScanLeaf(c.value, text, h.rest, how, leaf, if loc == [] then [] else loc[1..]);
        if r.Scanned? {
          LeafUp(p, h.seg, c.value, text, Target(c.value, h.rest, leaf), r, loc);
        } else {
          LeafCorrupted(p, h.seg, text, Target(p, path, leaf), r, loc);
        }
      }
    }
  }

  lemma LeafCorrupted(p: Pay, seg: Seg, text: Option<string>, t: seq<Seg>, r: Outcome, loc: seq<Seg>)
    requires r.Corrupted?
    ensures LeafAfter(p, text, t, Above(p, seg, r), loc)
  {
  }

  /** A scan that goes on with a child: what it comes to for p, and how the child stands to p. */
  lemma ScanDown(p: Pay, text: Option<string>, path: string, how: How, leaf: Kind)
    requires !p.Text? && SegHead(p, path).Head?
    requires var h := SegHead(p, path); !Wraps(p, h.seg, how, leaf) && Child(p, h.seg, h.rest, how, leaf).Some?
    ensures var h := SegHead(p, path);
      var c := Child(p, h.seg, h.rest, how, leaf).value;
      var r, t := Scan(c, text, h.rest, how, leaf), Target(c, h.rest, leaf);
      && Scan(p, text, Some(path), how, leaf) == Above(p, h.seg, r) && Target(p, Some(path), leaf) == [h.seg] + t
      && Fits(p, h.seg) && Size(h.rest) < Size(Some(path))
      && (At(p, h.seg) == Some(c) || (At(p, h.seg).None? && Blank(c) && (c.Text? ==> r.Scanned? && r.ok && t == [])))
  {
    HeadFits(p, path);
    RestShorter(path, if p.Arr? then |p.slots| else 0);
    hide SegHead;
  }

  /** What a scan means for p follows from what it means for the child it goes on with, found there or made empty. */
  lemma LeafUp(p: Pay, seg: Seg, c: Pay, text: Option<string>, t: seq<Seg>, r: Outcome, loc: seq<Seg>)
    requires r.Scanned? && Fits(p, seg)
    requires At(p, seg) == Some(c) || (At(p, seg).None? && Blank(c) && (c.Text? ==> r.ok && t == []))
    requires LeafAfter(c, text, t, r, if loc == [] then [] else loc[1..])
    ensures LeafAfter(p, text, [seg] + t, Above(p, seg, r), loc)
  {
    PutLookup(p, seg, r.value, [seg] + t);
    assert ([seg] + t)[1..] == t;
    if loc != [] {
      PutLookup(p, seg, r.value, loc);
      if loc[0] == seg {
        assert loc == [seg] + loc[1..];
      }
    }
  }
}
