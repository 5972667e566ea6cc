/** The laws of composite variables at arbitrary paths: set then get, what a set leaves alone, and excision. */
module VrblLaws {
  import opened Decimal
  import opened Options
  import opened VrblPath
  import opened VrblValue

  /** The recursive descent of element finds what the location named by the path holds. */
  lemma {:induction false} ElementResolves(p: Pay, path: Option<string>)
    ensures Element(p, path) == var loc := Resolve(path); if loc.None? then None else Lookup(p, loc.value)
    decreases Size(path)
  {
    if path.Some? && path.value != "" {
      RestShorter(path.value, 0);
      HeadSeg(path.value, 0);
      var h := ReadHead(path.value);
      if h.Head? {
        var there := At(p, h.seg);
        var more := Resolve(h.rest);
        if there.Some? {
          ElementResolves(there.value, h.rest);
        }
        if more.Some? {
          assert ([h.seg] + more.value)[1..] == more.value;
        }
      }
    }
  }

  // ---- set and get ----

  predicate Done(r: Outcome) {
    r.Scanned? && r.ok
  }

  /** No array segment appends and none has a letter after its number. */
  predicate Straight(path: Option<string>)
    decreases Size(path)
  {
    if path.None? || path.value == "" then true
    else
      RestShorter(path.value, 0);
      var h := ReadHead(path.value);
      h.Head? && (path.value[0] == DELIM_ARRAY ==> path.value[1] != SPACER) && Straight(h.rest)
  }

  /** Some array segment appends by a '-' that element takes for the sign of a number. */
  predicate Signed(path: Option<string>)
    decreases Size(path)
  {
    if path.None? || path.value == "" then false
    else
      RestShorter(path.value, 0);
      var h := ReadHead(path.value);
      h.Head? && ((path.value[0] == DELIM_ARRAY && path.value[1] == SPACER) || Signed(h.rest))
  }

  /** On a straight path scan works on the location that element reads. */
  lemma {:induction false} StraightTarget(p: Pay, text: Option<string>, path: Option<string>, how: How, leaf: Kind)
    requires Straight(path) && text.Some? && Done(Scan(p, text, path, how, leaf))
    ensures Resolve(path) == Some(Target(p, path, leaf))
    decreases Size(path)
  {
    if !p.Text? {
      var h := SegHead(p, path.value);
      RestShorter(path.value, if p.Arr? then |p.slots| else 0);
      assert h == ReadHead(path.value);
      StraightTarget(Child(p, h.seg, h.rest, how, leaf).value, text, h.rest, how, leaf);
    }
  }

  lemma {:induction false} CrookedUnread(path: Option<string>)
    requires !Straight(path) && !Signed(path)
    ensures Resolve(path).None?
    decreases Size(path)
  {
    RestShorter(path.value, 0);
    var h := ReadHead(path.value);
    if h.Head? {
      CrookedUnread(h.rest);
    }
  }

  /** Set, then get: after a successful scan of a string, element at the same path yields that string if the path names
    * the target of the scan, and otherwise only if what the path names held that string before. A straight path names
    * the target; one that is not names nothing, unless a '-' of it reads as a sign. */
  lemma SetGet(p: Pay, text: string, path: Option<string>, how: How, leaf: Kind)
    requires Done(Scan(p, Some(text), path, how, leaf))
    ensures var q := Scan(p, Some(text), path, how, leaf).value;
      var at, t := Resolve(path), Target(p, path, leaf);
      && Leaf(q, t) == Some(Some(text))
      && (Element(q, path) == Some(Text(Some(text)))
        <==> at == Some(t) || (at.Some? && Leaf(p, at.value) == Some(Some(text))))
      && (Straight(path) ==> at == Some(t))
        && (!Straight(path) && !Signed(path) ==> at.None? && Element(q, path) == None)
  {
    var q := Scan(p, Some(text), path, how, leaf).value;
    ElementResolves(q, path);
    ScanLeaf(p, Some(text), path, how, leaf, Target(p, path, leaf));
    if Resolve(path).Some? {
      ScanLeaf(p, Some(text), path, how, leaf, Resolve(path).value);
    }
    if Straight(path) {
      StraightTarget(p, Some(text), path, how, leaf);
    } else if !Signed(path) {
      CrookedUnread(path);
    }
  }

  lemma StraightHead(loc: seq<Seg>)
    requires Writable(loc) && loc != []
    ensures ReadHead(Print(loc)) == Head(loc[0], if loc[1..] == [] then None else Some(Print(loc[1..])))
    ensures |Print(loc)| >= 2 && (Print(loc)[0] == DELIM_ARRAY ==> Print(loc)[1] != SPACER)
  {
    var seg, rest := loc[0], Print(loc[1..]);
    assert seg in loc && Print(loc) == PrintSeg(seg) + rest;
    PrintStarts(loc[1..]);
    hide Print;
    HeadOfPrint(seg, rest);
    hide ReadHead;
    SegStarts(seg);
  }

  lemma SegStarts(seg: Seg)
    requires Writable([seg])
    ensures |PrintSeg(seg)| >= 2 && (PrintSeg(seg)[0] == DELIM_ARRAY ==> PrintSeg(seg)[1] != SPACER)
  {
    assert seg in [seg];
    if seg.Index? {
      DecDigits(seg.i);
      assert PrintSeg(seg)[1] == Dec(seg.i)[0] && Dec(seg.i)[0] in Dec(seg.i);
    }
  }

  lemma {:induction false} PrintStraight(loc: seq<Seg>)
    requires Writable(loc)
    ensures Straight(Some(Print(loc))) && !Signed(Some(Print(loc)))
    decreases |loc|
  {
    if loc != [] {
      StraightHead(loc);
      assert Writable(loc[1..]);
      PrintStraight(loc[1..]);
      PrintStarts(loc);
      hide ReadHead, Print;
      assert Straight(if loc[1..] == [] then None else Some(Print(loc[1..])));
    }
  }

  /** The law at every path that writes down a location: a successful scan stores the string there, and every other
    * string of the variable, there before or not, is what it was; a failed one leaves all strings. This holds exactly
    * as long as no array is made to grow beyond its counter, which takes the last index in the path. */
  lemma SetAt(p: Pay, text: string, loc: seq<Seg>, how: How, leaf: Kind, other: seq<Seg>)
    requires Writable(loc) && Writable(other)
    ensures var path := Some(Print(loc));
      var r := Scan(p, Some(text), path, how, leaf);
      && (r.Corrupted? <==> Overruns(p, path, how, leaf)) && (r.Corrupted? ==> Index(UINT - 1) in loc)
      && (Done(r) ==>
           && Element(r.value, path) == Some(Text(Some(text)))
           && (other != loc ==> Leaf(r.value, other) == Leaf(p, other)))
      && (r.Scanned? && !r.ok ==> Leaf(r.value, other) == Leaf(p, other))
  {
    var path := Some(Print(loc));
    PrintResolves(loc);
    PrintStraight(loc);
    ScanLeaf(p, Some(text), path, how, leaf, other);
    ScanOverruns(p, Some(text), path, how, leaf);
    if Index(UINT - 1) !in loc {
      OverrunNamed(p, loc, how, leaf);
    }
    if Done(Scan(p, Some(text), path, how, leaf)) {
      StraightTarget(p, Some(text), path, how, leaf);
      SetGet(p, text, path, how, leaf);
    }
  }

  lemma {:induction false} OverrunNamed(p: Pay, loc: seq<Seg>, how: How, leaf: Kind)
    requires Writable(loc) && Index(UINT - 1) !in loc
    ensures !Overruns(p, Some(Print(loc)), how, leaf)
    decreases |loc|
  {
    hide Child, Lookup;
    if loc != [] && !p.Text? {
      var path := Print(loc);
      var h := SegHead(p, path);
      StraightHead(loc);
      assert loc[0] in loc && Writable(loc[1..]);
      assert h.Head? ==> h == ReadHead(path);
      assert h.Head? ==> !Wraps(p, h.seg, how, leaf);
      hide ReadHead, SegHead, Print;
      if h.Head? && Child(p, h.seg, h.rest, how, leaf).Some? && loc[1..] != [] {
        OverrunNamed(Child(p, h.seg, h.rest, how, leaf).value, loc[1..], how, leaf);
      }
    }
  }

  // ---- when a set succeeds, and what it makes ----

  /** Every payload on the way to a location is a map where a name follows and an array where an index follows. */
  ghost predicate Open(p: Pay, loc: seq<Seg>) {
    forall k :: 0 <= k < |loc| && Lookup(p, loc[..k]).Some? ==>
      var a := Lookup(p, loc[..k]).value; if loc[k].Key? then a.Tree? else a.Arr?
  }

  /** A set at a location succeeds if the way there is open, and at its end there is a string that may be overwritten,
    * or nothing where a payload may be made. A map or an array at the end only takes the place of no string. */
  ghost predicate Settable(p: Pay, text: Option<string>, loc: seq<Seg>, how: How, leaf: Kind) {
    && Open(p, loc)
    && match Lookup(p, loc)
       case None => !how.NoCreate? && !leaf.GONE? && (leaf.STRING? || text.None?)
       case Some(Text(before)) => !how.MustCreate? || before.None?
       case Some(_) => loc != [] && text.None?
  }

  /** The same along the way; `deep` says that it has begun. */
  predicate SettableFrom(p: Pay, text: Option<string>, loc: seq<Seg>, how: How, leaf: Kind, deep: bool)
    decreases |loc|
  {
    if loc == [] then
      if p.Text? then !how.MustCreate? || p.text.None? else deep && text.None?
    else
      Fits(p, loc[0])
      && if At(p, loc[0]).Some? then SettableFrom(At(p, loc[0]).value, text, loc[1..], how, leaf, true)
         else !how.NoCreate? && !leaf.GONE? && (leaf.STRING? || text.None?)
  }

  lemma {:induction false} SettableMeans(p: Pay, text: Option<string>, loc: seq<Seg>, how: How, leaf: Kind, deep: bool)
    ensures SettableFrom(p, text, loc, how, leaf, deep) <==>
      if loc == [] && deep && !p.Text? then text.None? else Settable(p, text, loc, how, leaf)
    decreases |loc|
  {
    if loc != [] {
      var c := At(p, loc[0]);
      if c.Some? {
        SettableMeans(c.value, text, loc[1..], how, leaf, true);
      }
      OpenDown(p, loc);
      if c.None? {
        assert Settable(p, text, loc, how, leaf) <==> SettableFrom(p, text, loc, how, leaf, deep);
      } else if loc[1..] == [] {
        assert Lookup(p, loc) == c && (Open(p, loc) <==> Fits(p, loc[0]));
      } else {
        assert Settable(p, text, loc, how, leaf) <==> Fits(p, loc[0]) && Settable(c.value, text, loc[1..], how, leaf);
      }
    }
  }

  lemma LookupDown(p: Pay, loc: seq<Seg>, k: nat)
    requires 0 < k <= |loc|
    ensures var c := At(p, loc[0]);
      Lookup(p, loc[..k]) == if c.None? then None else Lookup(c.value, loc[1..][..k - 1])
  {
    assert loc[..k][1..] == loc[1..][..k - 1];
  }

  lemma OpenDown(p: Pay, loc: seq<Seg>)
    requires loc != []
    ensures Open(p, loc) <==> Fits(p, loc[0]) && (At(p, loc[0]).Some? ==> Open(At(p, loc[0]).value, loc[1..]))
  {
    var c := At(p, loc[0]);
    assert Lookup(p, loc[..0]) == Some(p);
    if Open(p, loc) && c.Some? {
      forall k | 0 <= k < |loc[1..]| && Lookup(c.value, loc[1..][..k]).Some?
        ensures var a := Lookup(c.value, loc[1..][..k]).value; if loc[1..][k].Key? then a.Tree? else a.Arr?
      {
        LookupDown(p, loc, k + 1);
        assert Lookup(p, loc[..k + 1]).Some?;
      }
    }
    if Fits(p, loc[0]) && (c.Some? ==> Open(c.value, loc[1..])) {
      forall k | 0 <= k < |loc| && Lookup(p, loc[..k]).Some?
        ensures var a := Lookup(p, loc[..k]).value; if loc[k].Key? then a.Tree? else a.Arr?
      {
        if k > 0 {
          LookupDown(p, loc, k);
          assert Lookup(c.value, loc[1..][..k - 1]).Some?;
        }
      }
    }
  }

  function PathOf(loc: seq<Seg>, deep: bool): Option<string> {
    if loc == [] && deep then None else Some(Print(loc))
  }

  /** The first segment of a printed location, at a payload that it fits and at one that it does not. */
  lemma HeadAt(p: Pay, loc: seq<Seg>)
    requires Writable(loc) && loc != [] && !p.Text?
    ensures SegHead(p, Print(loc)) == if Fits(p, loc[0]) then Head(loc[0], PathOf(loc[1..], true)) else Bad
    ensures Writable(loc[1..]) && Print(loc) != ""
  {
    StraightHead(loc);
    assert loc[0] in loc && Print(loc)[0] == PrintSeg(loc[0])[0];
  }

  /** A payload made where there was none, for the rest of a location. */
  predicate MadeFor(c: Pay, rest: seq<Seg>, leaf: Kind) {
    !leaf.GONE? && c == if rest != [] then (if rest[0].Key? then Tree(map[]) else Arr([]))
                        else if leaf.STRING? then Text(None) else if leaf.TREE? then Tree(map[]) else Arr([])
  }

  /** A payload made for the rest of a location is of the type that the rest asks for. */
  lemma MadeFits(p: Pay, loc: seq<Seg>, how: How, leaf: Kind)
    requires Writable(loc) && loc != [] && At(p, loc[0]).None? && !how.NoCreate? && !leaf.GONE?
    ensures var c := Child(p, loc[0], PathOf(loc[1..], true), how, leaf);
      c.Some? && MadeFor(c.value, loc[1..], leaf)
  {
    PrintStarts(loc[1..]);
    if loc[1..] != [] {
      assert Print(loc[1..])[0] == PrintSeg(loc[1..][0])[0];
    }
  }

  lemma BlankSettable(c: Pay, text: Option<string>, loc: seq<Seg>, how: How, leaf: Kind)
    requires !how.NoCreate? && MadeFor(c, loc, leaf)
    ensures SettableFrom(c, text, loc, how, leaf, true) <==> leaf.STRING? || text.None?
  {
  }

  lemma {:induction false} SucceedsFrom(p: Pay, text: Option<string>, loc: seq<Seg>, how: How, leaf: Kind, deep: bool)
    requires Writable(loc) && !Overruns(p, PathOf(loc, deep), how, leaf)
    ensures Done(Scan(p, text, PathOf(loc, deep), how, leaf)) <==> SettableFrom(p, text, loc, how, leaf, deep)
    decreases |loc|
  {
    PrintStarts(loc);
    if loc != [] && !p.Text? {
      HeadAt(p, loc);
      ScanStep(p, text, Print(loc), how, leaf);
      hide SegHead, Print, Scan;
      if Fits(p, loc[0]) {
        var rest := PathOf(loc[1..], true);
        var c := Child(p, loc[0], rest, how, leaf);
        if c.Some? {
          SucceedsFrom(c.value, text, loc[1..], how, leaf, true);
          if At(p, loc[0]).None? {
            MadeFits(p, loc, how, leaf);
            BlankSettable(c.value, text, loc[1..], how, leaf);
          }
        }
      }
    }
  }

  /** The exact condition for a set at the printed path of a location, unless it overruns an array. */
  lemma SetSucceeds(p: Pay, text: Option<string>, loc: seq<Seg>, how: How, leaf: Kind)
    requires Writable(loc) && !Overruns(p, Some(Print(loc)), how, leaf)
    ensures Done(Scan(p, text, Some(Print(loc)), how, leaf)) <==> Settable(p, text, loc, how, leaf)
  {
    SucceedsFrom(p, text, loc, how, leaf, false);
    SettableMeans(p, text, loc, how, leaf, false);
  }

  /** What a set leaves at its location: the text in place of a string or of nothing, or an empty payload of the leaf
    * type; a map or an array stays what it is. */
  function Final(a: Option<Pay>, text: Option<string>, leaf: Kind): Pay {
    match a
    case None => if leaf.TREE? then Tree(map[]) else if leaf.ARRAY? then Arr([]) else Text(text)
    case Some(Text(_)) => Text(text)
    case Some(b) => b
  }

  /** A payload on the way: a map before a name, an array before an index, grown to hold it if need be. */
  predicate OnWay(a: Option<Pay>, b: Option<Pay>, seg: Seg) {
    && b.Some?
    && match seg
       case Key(_) => b.value.Tree?
       case Index(i) =>
         b.value.Arr? && |b.value.slots| == if a.Some? && a.value.Arr? then Max(|a.value.slots|, i + 1) else i + 1
  }

  function Max(a: nat, b: nat): nat {
    if a < b then b else a
  }

  /** The payload at any other location after a set. */
  predicate SetAfter(p: Pay, q: Pay, text: Option<string>, loc: seq<Seg>, leaf: Kind, other: seq<Seg>) {
    if other == loc then Lookup(q, loc) == Some(Final(Lookup(p, loc), text, leaf))
    else if other <= loc then OnWay(Lookup(p, other), Lookup(q, other), loc[|other|])
    else Lookup(q, other) == Lookup(p, other)
  }

  lemma {:induction false} SetFrom(p: Pay, text: Option<string>, loc: seq<Seg>, how: How, leaf: Kind, deep: bool,
                                   other: seq<Seg>)
    requires Writable(loc) && Done(Scan(p, text, PathOf(loc, deep), how, leaf))
    ensures SetAfter(p, Scan(p, text, PathOf(loc, deep), how, leaf).value, text, loc, leaf, other)
    decreases |loc|
  {
    PrintStarts(loc);
    if loc == [] {
      SetHere(p, text, how, leaf, deep, other);
    } else {
      HeadAt(p, loc);
      ScanStep(p, text, Print(loc), how, leaf);
      hide SegHead, Print, Scan, SetAfter;
      var rest := PathOf(loc[1..], true);
      var c := Child(p, loc[0], rest, how, leaf).value;
      var r := Scan(c, text, rest, how, leaf);
      SetFrom(c, text, loc[1..], how, leaf, true, if other == [] then [] else other[1..]);
      if At(p, loc[0]).None? {
        MadeFits(p, loc, how, leaf);
      }
      SetUp(p, loc, c, r.value, text, leaf, other);
    }
  }

  lemma SetHere(p: Pay, text: Option<string>, how: How, leaf: Kind, deep: bool, other: seq<Seg>)
    requires Done(Scan(p, text, PathOf([], deep), how, leaf))
    ensures SetAfter(p, Scan(p, text, PathOf([], deep), how, leaf).value, text, [], leaf, other)
  {
  }

  /** From the payload one step down, found there or made empty. */
  lemma SetUp(p: Pay, loc: seq<Seg>, c: Pay, d: Pay, text: Option<string>, leaf: Kind, other: seq<Seg>)
    requires loc != [] && Fits(p, loc[0])
    requires At(p, loc[0]) == Some(c) || (At(p, loc[0]).None? && MadeFor(c, loc[1..], leaf))
    requires SetAfter(c, d, text, loc[1..], leaf, if other == [] then [] else other[1..])
    ensures SetAfter(p, Put(p, loc[0], d), text, loc, leaf, other)
  {
    if other == [] {
      SetRoot(p, loc, d);
    } else {
      PutLookup(p, loc[0], d, other);
      PrefixBelow(loc[0], loc[1..], other);
      PrefixBelow(other[0], other[1..], loc);
      assert other == [other[0]] + other[1..] && loc == [loc[0]] + loc[1..];
      hide Put;
      if other[0] == loc[0] && At(p, loc[0]).None? {
        MadeAfter(c, d, text, loc[1..], leaf, other[1..]);
      }
    }
  }

  lemma SetRoot(p: Pay, loc: seq<Seg>, d: Pay)
    requires loc != [] && Fits(p, loc[0])
    ensures OnWay(Some(p), Some(Put(p, loc[0], d)), loc[0])
  {
  }

  /** It is as good as none. */
  lemma MadeAfter(c: Pay, d: Pay, text: Option<string>, rest: seq<Seg>, leaf: Kind, other: seq<Seg>)
    requires MadeFor(c, rest, leaf) && SetAfter(c, d, text, rest, leaf, other)
    ensures if other == rest then Lookup(d, other) == Some(Final(None, text, leaf))
            else if other <= rest then OnWay(None, Lookup(d, other), rest[|other|])
            else Lookup(d, other) == None
  {
    if other != [] {
      assert Lookup(c, other) == None;
    }
  }

  /** And what a set that succeeds makes of the whole variable: the payload at its location, maps and arrays on the way
    * as the location asks for them, and nothing else. */
  lemma SetMakes(p: Pay, text: Option<string>, loc: seq<Seg>, how: How, leaf: Kind, other: seq<Seg>)
    requires Writable(loc) && Done(Scan(p, text, Some(Print(loc)), how, leaf))
    ensures SetAfter(p, Scan(p, text, Some(Print(loc)), how, leaf).value, text, loc, leaf, other)
  {
    SetFrom(p, text, loc, how, leaf, false, other);
  }

  lemma LastStep(s: seq<Option<Pay>>, text: Option<string>, i: nat, how: How, leaf: Kind)
    requires |s| < UINT && i < UINT && Creates(how, leaf)
    ensures Onward(Arr(s), Index(i), text, None, how, leaf).Corrupted? <==> i == UINT - 1
  {
    var c := Child(Arr(s), Index(i), None, how, leaf);
    assert c.Some? ==> Scan(c.value, text, None, how, leaf).Scanned?;
  }

  /** Where a scan may create, the last index runs over every array, and so does every number that strtoul and the
    * conversion to an unsigned int turn into it. */
  lemma LastIndex(s: seq<Option<Pay>>, text: Option<string>, n: nat, how: How, leaf: Kind)
    requires |s| < UINT && Creates(how, leaf)
    ensures Scan(Arr(s), text, Some(PrintSeg(Index(n))), how, leaf).Corrupted? <==> n >= ULONG || n % UINT == UINT - 1
  {
    var path := PrintSeg(Index(n));
    assert path + "" == path;
    HeadOfIndex(n, "", |s|);
    NarrowedLast(n);
    hide PrintSeg, ScanHead, Narrowed;
    ScanStep(Arr(s), text, path, how, leaf);
    assert SegHead(Arr(s), path) == Head(Index(Narrowed(false, n)), None);
    LastStep(s, text, Narrowed(false, n), how, leaf);
    hide *;
  }

  lemma FirstDigits()
    ensures Dec(42949) == "42949"
  {
    assert Dec(4) == "4";
    hide Dec;
    DecNext(4, 2);
    DecNext(42, 9);
    DecNext(429, 4);
    DecNext(4294, 9);
  }

  lemma LastIndexDec()
    ensures Dec(UINT - 1) == "4294967295"
  {
    FirstDigits();
    hide Dec;
    DecNext(42949, 6);
    DecNext(429496, 7);
    DecNext(4294967, 2);
    DecNext(42949672, 9);
    DecNext(429496729, 5);
  }

  /** As a client would write it; the string that the array held is lost with it. */
  lemma LastIndexPath(kept: string, text: string, how: How)
    requires Creates(how, STRING)
    ensures Scan(Arr([Some(Text(Some(kept)))]), Some(text), Some([DELIM_ARRAY] + "4294967295"), how, STRING).Corrupted?
  {
    LastIndexDec();
    LastIndexFirst(kept, text, how);
    hide Dec;
  }

  lemma LastIndexFirst(kept: string, text: string, how: How)
    requires Creates(how, STRING)
    ensures Scan(Arr([Some(Text(Some(kept)))]), Some(text), Some([DELIM_ARRAY] + Dec(UINT - 1)), how, STRING).Corrupted?
  {
    LastIndex([Some(Text(Some(kept)))], Some(text), UINT - 1, how, STRING);
    assert PrintSeg(Index(UINT - 1)) == [DELIM_ARRAY] + Dec(UINT - 1);
    hide *;
  }

  /** In terms of arbitrary paths: unless memory was corrupted, a string that element could read is read again
    * afterwards, if its path does not name the target of the scan. */
  lemma SetFrame(p: Pay, text: Option<string>, path: Option<string>, how: How, leaf: Kind, other: Option<string>)
    requires Element(p, other).Some? && Element(p, other).value.Text?
    ensures var r := Scan(p, text, path, how, leaf);
      && (r.Corrupted? <==> Overruns(p, path, how, leaf))
      && (r.Scanned? && (r.ok ==> Resolve(other) != Some(Target(p, path, leaf))) ==>
        Element(r.value, other) == Element(p, other))
  {
    var r := Scan(p, text, path, how, leaf);
    ScanOverruns(p, text, path, how, leaf);
    ElementResolves(p, other);
    if r.Scanned? {
      ElementResolves(r.value, other);
      ScanLeaf(p, text, path, how, leaf, Resolve(other).value);
    }
  }

  /** The token '-' appends: the string is the new last element, though element at the same path finds nothing. An array
    * that its counter cannot count further is overrun. */
  lemma Append(s: seq<Option<Pay>>, text: string, how: How)
    requires |s| < UINT && !how.NoCreate?
    ensures Scan(Arr(s), Some(text), Some("#-"), how, STRING)
      == if |s| == UINT - 1 then Corrupted else Scanned(Arr(s + [Some(Text(Some(text)))]), true)
    ensures Element(Arr(s + [Some(Text(Some(text)))]), Some("#-")) == None
  {
    assert Next("#-") == 0 by {
      assert NextFrom("#-", 2) == 0 && NextFrom("#-", 1) == 0;
    }
    assert "#-"[1..] == "-" && Strtoul("-").None? by {
      assert Spaces("-") == 0 && "-"[1..] == "";
    }
    assert Grown(s, |s| + 1)[|s| := Some(Text(Some(text)))] == s + [Some(Text(Some(text)))];
    var c := Child(Arr(s), Index(|s|), None, how, STRING);
    assert c == Some(Text(None));
    assert Scan(c.value, Some(text), None, how, STRING) == Scanned(Text(Some(text)), true);
  }

  /** HOW_MUST_CREATE overwrites nothing: a scan that succeeds found no string at its target. */
  lemma {:induction false} MustCreateNew(p: Pay, text: Option<string>, path: Option<string>, leaf: Kind)
    requires text.Some? && Done(Scan(p, text, path, MustCreate, leaf))
    ensures Leaf(p, Target(p, path, leaf)) in {None, Some(None)}
    decreases Size(path)
  {
    if !p.Text? {
      var h := SegHead(p, path.value);
      RestShorter(path.value, if p.Arr? then |p.slots| else 0);
      var c := Child(p, h.seg, h.rest, MustCreate, leaf).value;
      MustCreateNew(c, text, h.rest, leaf);
      var t := Target(c, h.rest, leaf);
      assert ([h.seg] + t)[1..] == t;
    }
  }

  /** HOW_NO_CREATE only ever replaces: whether or not it succeeds, no location gains or loses a payload. */
  lemma {:induction false} NoCreateReplaces(p: Pay, text: Option<string>, path: Option<string>, leaf: Kind,
                                            loc: seq<Seg>)
    ensures var r := Scan(p, text, path, NoCreate, leaf);
      r.Scanned? && (Lookup(r.value, loc).Some? <==> Lookup(p, loc).Some?)
    decreases Size(path)
  {
    if !p.Text? && path.Some? && SegHead(p, path.value).Head? {
      var h := SegHead(p, path.value);
      RestShorter(path.value, if p.Arr? then |p.slots| else 0);
      HeadFits(p, path.value);
      var c := Child(p, h.seg, h.rest, NoCreate, leaf);
      if c.Some? {
        NoCreateReplaces(c.value, text, h.rest, leaf, if loc == [] then [] else loc[1..]);
        if loc != [] {
          PutLookup(p, h.seg, Scan(c.value, text, h.rest, NoCreate, leaf).value, loc);
        }
      }
    }
  }

  // ---- excision ----

  /** Something is there to remove, and the path names it. */
  predicate Removable(p: Pay, path: string) {
    Resolve(Some(path)).Some? && Lookup(p, Resolve(Some(path)).value).Some?
  }

  /** Payloads of the same type; arrays also have the same size. */
  predicate Alike(a: Option<Pay>, b: Option<Pay>) {
    match (a, b)
    case (Some(Tree(_)), Some(Tree(_))) => true
    case (Some(Arr(s)), Some(Arr(t))) => |s| == |t|
    case _ => a == b
  }

  /** What an excision at t has done to the payload at a location: at t and below there is none any more, the maps and
    * arrays on the way there still stand, and everything beside the way is as it was. */
  predicate LookupAfter(p: Pay, q: Pay, t: seq<Seg>, loc: seq<Seg>) {
    if t <= loc then Lookup(q, loc) == None
    else if loc <= t then Alike(Lookup(q, loc), Lookup(p, loc))
    else Lookup(q, loc) == Lookup(p, loc)
  }

  predicate Excised(p: Pay, path: string, relax: bool, loc: seq<Seg>) {
    var (q, ok) := Excise(p, path, relax);
    if Removable(p, path) then ok && LookupAfter(p, q, Resolve(Some(path)).value, loc)
    else q == p && (ok ==> relax)
  }

  /** Excision removes exactly the payload that the path names and everything below it, whatever its type, and element
    * finds nothing there any more; where there is none, nothing changes, and it only succeeds when asked to be
    * relaxed. */
  lemma ExciseExact(p: Pay, path: string, relax: bool, loc: seq<Seg>)
    requires path != ""
    ensures var (q, ok) := Excise(p, path, relax);
      if !Removable(p, path) then q == p && (ok ==> relax)
      else
        var t := Resolve(Some(path)).value;
        && ok && LookupAfter(p, q, t, loc) && (Lookup(q, loc).Some? <==> Lookup(p, loc).Some? && !(t <= loc))
        && Element(q, Some(path)) == None && Leaf(q, loc) == if t <= loc then None else Leaf(p, loc)
  {
    var q := Excise(p, path, relax).0;
    ExciseLookup(p, path, relax, loc);
    if Removable(p, path) {
      var t := Resolve(Some(path)).value;
      ExciseLookup(p, path, relax, t);
      ElementResolves(q, Some(path));
      hide Excise, Resolve, Element;
      if loc <= t && loc != t {
        LookupOnWay(p, loc, t);
      }
    }
  }

  /** What lies on the way to a payload is a payload, and no string. */
  lemma {:induction false} LookupOnWay(p: Pay, loc: seq<Seg>, t: seq<Seg>)
    requires loc <= t && loc != t && Lookup(p, t).Some?
    ensures Lookup(p, loc).Some? && !Lookup(p, loc).value.Text?
    decreases |loc|
  {
    if loc != [] {
      LookupOnWay(At(p, loc[0]).value, loc[1..], t[1..]);
    }
  }

  lemma {:induction false} ExciseLookup(p: Pay, path: string, relax: bool, loc: seq<Seg>)
    requires path != ""
    ensures Excised(p, path, relax, loc)
    decreases |path|
  {
    RestShorter(path, 0);
    HeadSeg(path, 0);
    var h := ReadHead(path);
    if Fits(p, if h.Head? then h.seg else Key("")) && h.Head? && At(p, h.seg).Some? {
      var c := At(p, h.seg).value;
      if h.rest.Some? {
        ExciseLookup(c, h.rest.value, relax, if loc == [] then [] else loc[1..]);
      }
      ExciseUp(p, path, relax, loc);
    }
  }

  lemma ExciseStep(p: Pay, path: string, relax: bool)
    requires path != "" && ReadHead(path).Head? && At(p, ReadHead(path).seg).Some?
    ensures var h := ReadHead(path);
      Fits(p, h.seg) && Put(p, h.seg, At(p, h.seg).value) == p
    ensures var h := ReadHead(path);
      var r := if h.rest.Some? then Excise(At(p, h.seg).value, h.rest.value, relax) else (p, true);
      h.rest.Some? ==> Excise(p, path, relax) == (Put(p, h.seg, r.0), r.1)
  {
  }

  lemma ExciseUp(p: Pay, path: string, relax: bool, loc: seq<Seg>)
    requires path != "" && ReadHead(path).Head? && At(p, ReadHead(path).seg).Some?
    requires var h := ReadHead(path);
      var c := At(p, h.seg).value;
      h.rest.Some? ==> h.rest.value != "" && Excised(c, h.rest.value, relax, if loc == [] then [] else loc[1..])
    ensures Excised(p, path, relax, loc)
  {
    var h := ReadHead(path);
    var c := At(p, h.seg).value;
    var more := Resolve(h.rest);
    ExciseStep(p, path, relax);
    assert Resolve(Some(path)) == if more.None? then None else Some([h.seg] + more.value);
    assert h.rest.None? ==> more == Some([]) && [h.seg] + [] == [h.seg];
    hide TreeHead, ArrayHead, ReadHead, Put;
    if h.rest.Some? {
      ExciseBelow(p, h.seg, c, path, h.rest.value, relax, loc);
    } else {
      ExciseHere(p, h.seg, c, path, relax, loc);
    }
  }

  lemma ExciseBelow(p: Pay, seg: Seg, c: Pay, path: string, rest: string, relax: bool, loc: seq<Seg>)
    requires Fits(p, seg) && At(p, seg) == Some(c) && Put(p, seg, c) == p
    requires var more := Resolve(Some(rest));
      Resolve(Some(path)) == if more.None? then None else Some([seg] + more.value)
    requires var r := Excise(c, rest, relax); Excise(p, path, relax) == (Put(p, seg, r.0), r.1)
    requires Excised(c, rest, relax, if loc == [] then [] else loc[1..])
    ensures Excised(p, path, relax, loc)
  {
    var more := Resolve(Some(rest));
    hide Excise, Resolve;
    if more.Some? {
      assert ([seg] + more.value)[1..] == more.value;
      PrefixBelow(seg, more.value, loc);
    }
    if loc != [] {
      PutLookup(p, seg, Excise(c, rest, relax).0, loc);
    }
  }

  lemma ExciseHere(p: Pay, seg: Seg, c: Pay, path: string, relax: bool, loc: seq<Seg>)
    requires path != "" && ReadHead(path) == Head(seg, None) && At(p, seg) == Some(c)
      && Resolve(Some(path)) == Some([seg])
    ensures Excised(p, path, relax, loc)
  {
    hide TreeHead, ArrayHead, ReadHead, Resolve;
    assert [seg][1..] == [] && Lookup(c, []) == Some(c);
    PrefixBelow(seg, [], loc);
    if loc != [] {
      CutLookup(p, path, relax, loc);
    } else {
      LastCut(p, path, relax);
    }
  }

  lemma LastCut(p: Pay, path: string, relax: bool)
    requires path != "" && ReadHead(path).Head? && At(p, ReadHead(path).seg).Some? && ReadHead(path).rest.None?
    ensures var (q, ok) := Excise(p, path, relax); ok && Alike(Some(q), Some(p))
  {
  }

  lemma PrefixBelow<T>(a: T, b: seq<T>, s: seq<T>)
    ensures [a] + b <= s <==> s != [] && s[0] == a && b <= s[1..]
  {
    if s != [] && s[0] == a {
      assert s == [a] + s[1..];
    }
    assert [a] + b <= s ==> s[0] == ([a] + b)[0] && b == ([a] + b)[1..] <= s[1..];
  }

  /** The last segment of the path: the payload there is gone and the others stay. */
  lemma CutLookup(p: Pay, path: string, relax: bool, loc: seq<Seg>)
    requires path != "" && ReadHead(path).Head? && At(p, ReadHead(path).seg).Some? && ReadHead(path).rest.None?
      && loc != []
    ensures var (q, ok) := Excise(p, path, relax);
      ok && Lookup(q, loc) == if loc[0] == ReadHead(path).seg then None else Lookup(p, loc)
  {
  }

  /** Where there is nothing to remove the answer is whether that was to be relaxed, unless the way to it is blocked: a
    * name where there is an array or an index where there is a map is an error. k is how far the way goes. */
  lemma {:induction false} ExciseMissing(p: Pay, path: string, relax: bool, k: nat)
    requires path != "" && Resolve(Some(path)).Some?
    requires var t := Resolve(Some(path)).value;
      k < |t| && Lookup(p, t[..k]).Some? && Lookup(p, t[..k + 1]).None?
    ensures var t := Resolve(Some(path)).value;
      var a := Lookup(p, t[..k]).value;
      Excise(p, path, relax).1 <==> relax && (a.Text? || (if t[k].Key? then a.Tree? else a.Arr?))
    decreases |path|
  {
    RestShorter(path, 0);
    HeadSeg(path, 0);
    var h, t := ReadHead(path), Resolve(Some(path)).value;
    var more := Resolve(h.rest).value;
    assert t == [h.seg] + more;
    LookupDown(p, t, k + 1);
    assert t[1..] == more && t[..1] == [h.seg];
    if k == 0 {
      assert t[..0] == [] && more[..0] == [];
      assert At(p, h.seg).None?;
    } else {
      LookupDown(p, t, k);
      ExciseStep(p, path, relax);
      ExciseMissing(At(p, h.seg).value, h.rest.value, relax, k - 1);
    }
  }
}
