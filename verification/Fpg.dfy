/** Loading an fpg file: the commands before the marker, then the image after it, through one fixed buffer and whatever
  * short transfers the system makes. */
module Fpg {

  const LAST_CMD := "?quit"
  const FUDGE: nat := 4
  const BUFFER: nat := 8192

  /** What has to follow the start of a marker in the buffer before it is looked at. */
  const TEST: nat := |LAST_CMD| + FUDGE

  /** What becomes of one read or write: it moves up to a number of bytes, is interrupted, or fails. */
  datatype Outcome = Moves(n: nat) | Again | Fails

  predicate MarkerAt(f: string, p: nat) {
    p + |LAST_CMD| <= |f| && f[p..p + |LAST_CMD|] == LAST_CMD
  }

  ghost predicate Unmarked(f: string, n: int) {
    forall p :: 0 <= p < n ==> !MarkerAt(f, p)
  }

  /** The first marker from p on, or the end of the file. */
  function FirstMarker(f: string, p: nat): nat
    requires p <= |f|
    decreases |f| - p
  {
    if p == |f| || MarkerAt(f, p) then p else FirstMarker(f, p + 1)
  }

  /** How many line ends directly follow position p, up to n of them. */
  function LineEnds(f: string, p: nat, n: nat): nat
    decreases n
  {
    if n > 0 && p < |f| && (f[p] == '\r' || f[p] == '\n') then 1 + LineEnds(f, p + 1, n - 1) else 0
  }

  /** The marker counts if the longest line end would still fit after it and one byte more. */
  predicate Marked(f: string) {
    FirstMarker(f, 0) + |LAST_CMD| + FUDGE < |f|
  }

  /** The commands and the image of a marked file. */
  function Commands(f: string): string
    requires Marked(f)
  {
    f[..FirstMarker(f, 0)]
  }

  function Image(f: string): string
    requires Marked(f)
  {
    var p := FirstMarker(f, 0) + |LAST_CMD|;
    LineEndsFit(f, p, FUDGE);
    f[p + LineEnds(f, p, FUDGE)..]
  }

  lemma {:induction false} LineEndsFit(f: string, p: nat, n: nat)
    ensures LineEnds(f, p, n) <= n && (p <= |f| ==> p + LineEnds(f, p, n) <= |f|)
    decreases n
  {
    if n > 0 {
      LineEndsFit(f, p + 1, n - 1);
    }
  }

  lemma {:induction false} FirstMarkerIs(f: string, p: nat, q: nat)
    requires p <= q <= |f| && (forall i :: p <= i < q ==> !MarkerAt(f, i)) && (q == |f| || MarkerAt(f, q))
    ensures FirstMarker(f, p) == q
    decreases q - p
  {
    if p < q {
      FirstMarkerIs(f, p + 1, q);
    }
  }

  lemma {:induction false} FirstMarkerFar(f: string, p: nat, q: nat)
    requires p <= q <= |f| && (forall i :: p <= i < q ==> !MarkerAt(f, i))
    ensures q <= FirstMarker(f, p) <= |f| && FirstMarker(f, p) == FirstMarker(f, q)
    decreases q - p
  {
    if p < q {
      FirstMarkerFar(f, p + 1, q);
    } else {
      FirstMarkerSound(f, p);
    }
  }

  /** How many half buffers of commands an unmarked file of n bytes is loaded in before its end is seen. */
  function Halves(n: nat): nat {
    if n < BUFFER / 2 + |LAST_CMD| + FUDGE then 0 else 1 + Halves(n - BUFFER / 2)
  }

  lemma {:induction false} HalvesFit(n: nat)
    ensures Halves(n) * (BUFFER / 2) <= n && (n > 0 ==> Halves(n) * (BUFFER / 2) < n)
  {
    if n >= BUFFER / 2 + |LAST_CMD| + FUDGE {
      HalvesFit(n - BUFFER / 2);
    }
  }

  /** What goes to the interpreter and what goes upstream, of any file. */
  function Loaded(f: string): string {
    HalvesFit(|f|);
    if Marked(f) then Commands(f) else f[..Halves(|f|) * (BUFFER / 2)]
  }

  function Upstream(f: string): string {
    HalvesFit(|f|);
    if Marked(f) then Image(f) else f[Halves(|f|) * (BUFFER / 2)..]
  }

  /** A file is marked if any marker in it is far enough from its end, and the first such marker then divides it. */
  lemma MarkedMeans(f: string, p: nat)
    requires MarkerAt(f, p)
    ensures p + TEST < |f| ==> Marked(f) && |Commands(f)| <= p
    ensures Marked(f) ==> MarkerAt(f, |Commands(f)|) && Unmarked(f, |Commands(f)|)
  {
    FirstMarkerHits(f, 0, p);
  }

  lemma {:induction false} FirstMarkerHits(f: string, p: nat, q: nat)
    requires p <= q && MarkerAt(f, q)
    ensures p <= FirstMarker(f, p) <= q && MarkerAt(f, FirstMarker(f, p))
    ensures forall i :: p <= i < FirstMarker(f, p) ==> !MarkerAt(f, i)
    decreases q - p
  {
    if p < q && !MarkerAt(f, p) {
      FirstMarkerHits(f, p + 1, q);
    }
  }

  /** The first marker, with bytes enough after it. */
  lemma Divided(f: string, p: nat)
    requires MarkerAt(f, p) && Unmarked(f, p) && p + TEST < |f|
    ensures var q := p + |LAST_CMD|;
      Marked(f) && Commands(f) == f[..p] && q + LineEnds(f, q, FUDGE) <= |f|
        && Image(f) == f[q + LineEnds(f, q, FUDGE)..]
  {
    FirstMarkerIs(f, 0, p);
    LineEndsFit(f, p + |LAST_CMD|, FUDGE);
  }

  /** The parts of a marked file: commands without a marker, the marker, up to four line ends, and an image that does
    * not begin with a line end unless four have been skipped. */
  lemma Parts(f: string) returns (ends: string)
    requires Marked(f)
    ensures f == Commands(f) + LAST_CMD + ends + Image(f) && Unmarked(f, |Commands(f)|) && Image(f) != ""
    ensures |ends| <= FUDGE && (forall c :: c in ends ==> c == '\r' || c == '\n')
    ensures |ends| < FUDGE ==> Image(f)[0] != '\r' && Image(f)[0] != '\n'
  {
    var p := FirstMarker(f, 0);
    var q := p + |LAST_CMD|;
    var n := LineEnds(f, q, FUDGE);
    FirstMarkerSound(f, 0);
    LineEndsFit(f, q, FUDGE);
    LineEndsAre(f, q, FUDGE);
    ends := f[q..q + n];
    Quartered(f, p, q, q + n);
  }

  lemma Quartered(f: string, a: nat, b: nat, c: nat)
    requires a <= b <= c <= |f|
    ensures f == f[..a] + f[a..b] + f[b..c] + f[c..]
  {
    assert f[..b] == f[..a] + f[a..b];
    assert f[..c] == f[..b] + f[b..c];
  }

  lemma {:induction false} FirstMarkerSound(f: string, p: nat)
    requires p <= |f|
    ensures p <= FirstMarker(f, p) <= |f| && (FirstMarker(f, p) < |f| ==> MarkerAt(f, FirstMarker(f, p)))
    ensures forall i :: p <= i < FirstMarker(f, p) ==> !MarkerAt(f, i)
    decreases |f| - p
  {
    if p < |f| && !MarkerAt(f, p) {
      FirstMarkerSound(f, p + 1);
    }
  }

  lemma {:induction false} LineEndsAre(f: string, p: nat, n: nat)
    requires p <= |f|
    ensures var k := LineEnds(f, p, n);
      && p + k <= |f| && (forall i :: p <= i < p + k ==> f[i] == '\r' || f[i] == '\n')
      && (k < n && p + k < |f| ==> f[p + k] != '\r' && f[p + k] != '\n')
    decreases n
  {
    if n > 0 && p < |f| && (f[p] == '\r' || f[p] == '\n') {
      LineEndsAre(f, p + 1, n - 1);
    }
  }

  /** Without a marker that counts, the rest of the file that was not loaded goes upstream as if it were an image: what
    * is loaded are half buffers, as many as can be before too little is left to search. */
  lemma UnmarkedGoesUpstream(f: string)
    requires !Marked(f)
    ensures Loaded(f) + Upstream(f) == f && (f != "" ==> Upstream(f) != "")
    ensures |Loaded(f)| % (BUFFER / 2) == 0 && |Upstream(f)| < BUFFER / 2 + |LAST_CMD| + FUDGE
    ensures Loaded(f) != "" ==> |Upstream(f)| >= |LAST_CMD| + FUDGE
  {
    hide Halves, Marked;
    HalvesFit(|f|);
    HalvesMost(|f|);
    WholeHalves(Halves(|f|));
  }

  lemma {:induction false} WholeHalves(h: nat)
    ensures (h * 4096) % 4096 == 0
  {
    if h > 0 {
      WholeHalves(h - 1);
      assert h * 4096 == (h - 1) * 4096 + 4096;
    }
  }

  lemma {:induction false} HalvesMost(n: nat)
    ensures var rest := n - Halves(n) * (BUFFER / 2);
      rest < BUFFER / 2 + |LAST_CMD| + FUDGE && (Halves(n) > 0 ==> rest >= |LAST_CMD| + FUDGE)
  {
    if n >= BUFFER / 2 + |LAST_CMD| + FUDGE {
      HalvesMost(n - BUFFER / 2);
    }
  }

  /** Such as all of this file, which is nothing but a command. */
  lemma CommandGoesUpstream()
    ensures var f := "?uploadbin\n"; !Marked(f) && Loaded(f) == "" && Upstream(f) == f
  {
    var f := "?uploadbin\n";
    assert |f| == 11 && f[1] == 'u';
    assert !MarkerAt(f, 0) by {
      assert f[0..0 + |LAST_CMD|][1] == f[1];
    }
    assert !MarkerAt(f, 1) by {
      assert f[1..1 + |LAST_CMD|][0] == f[1];
    }
    FirstMarkerSound(f, 0);
    hide MarkerAt, FirstMarker;
    assert Halves(|f|) == 0 && f[..0] == "" && f[0..] == f;
  }

  lemma {:induction false} HalvesAre(n: nat, k: nat)
    requires k * (BUFFER / 2) <= n < k * (BUFFER / 2) + BUFFER / 2 + |LAST_CMD| + FUDGE
    requires k > 0 ==> n >= k * (BUFFER / 2) + |LAST_CMD| + FUDGE
    ensures Halves(n) == k
    decreases k
  {
    if k > 0 {
      HalvesAre(n - BUFFER / 2, k - 1);
    }
  }

  lemma SliceSlice(s: string, a: nat, b: nat, c: nat, d: nat)
    requires a <= b <= |s| && c <= d <= b - a
    ensures s[a..b][c..d] == s[a + c..a + d]
  {
    var t := s[a..b];
    assert forall i :: 0 <= i < d - c ==> t[c..d][i] == t[c + i] == s[a + c + i];
  }

  /** struct ipr_state with the file it reads, the commands loaded and the bytes sent upstream. */
  class Upload {
    const file: string
    var pos: nat
    var inputs: seq<Outcome>
    var outputs: seq<Outcome>
    var buffer: array<char>
    var used: nat
    var seen: nat
    var loaded: string
    var sent: string

    constructor (file: string, inputs: seq<Outcome>, outputs: seq<Outcome>)
      ensures Valid() && this.file == file && pos == 0 && this.inputs == inputs && this.outputs == outputs
      ensures used == 0 && seen == 0 && loaded == "" && sent == "" && fresh(buffer)
    {
      this.file, pos, this.inputs, this.outputs := file, 0, inputs, outputs;
      buffer, used, seen, loaded, sent := new char[BUFFER], 0, 0, "", "";
    }

    ghost predicate Valid()
      reads this
    {
      buffer.Length == BUFFER && used <= BUFFER && pos <= |file|
    }

    /** What has been read and not dealt with, then what is still in the file. */
    ghost function Pending(): string
      requires Valid()
      reads this, buffer
    {
      buffer[..used] + file[pos..]
    }

    /** read() into the free part of the buffer. The outcomes may be any; when they run out, reads move all they can. */
    method Read() returns (rr: int, failed: bool)
      requires Valid() && used < BUFFER
      modifies this`pos, this`inputs, this`used, buffer
      ensures Valid() && Pending() == old(Pending()) && failed == (old(inputs) != [] && old(inputs)[0].Fails?)
      ensures inputs == if old(inputs) == [] then [] else old(inputs)[1..]
      ensures rr < 0 ==> old(inputs) != [] && !old(inputs)[0].Moves? && pos == old(pos) && used == old(used)
      ensures rr < 0 ==> buffer[..] == old(buffer[..])
      ensures rr == 0 ==> pos == |file| == old(pos) && used == old(used) && buffer[..] == old(buffer[..]) && !failed
      ensures rr > 0 ==> used == old(used) + rr && pos == old(pos) + rr && !failed
      ensures rr > 0 ==> buffer[..used] == old(buffer[..used]) + file[old(pos)..pos]
    {
      failed := false;
      var most := BUFFER;
      if inputs != [] {
        var first := inputs[0];
        inputs := inputs[1..];
        if !first.Moves? {
          return -1, first.Fails?;
        }
        most := if first.n == 0 then 1 else first.n;
      }
      var n := if most < BUFFER - used then most else BUFFER - used;
      n := if n < |file| - pos then n else |file| - pos;
      Copy(n);
      return n, false;
    }

    /** The next n bytes of the file go behind what is in the buffer. */
    method Copy(n: nat)
      requires Valid() && used + n <= BUFFER && pos + n <= |file|
      modifies this`pos, this`used, buffer
      ensures Valid() && Pending() == old(Pending()) && used == old(used) + n && pos == old(pos) + n
      ensures buffer[..used] == old(buffer[..used]) + file[old(pos)..pos] && (n == 0 ==> buffer[..] == old(buffer[..]))
    {
      ghost var held, more, rest := buffer[..used], file[pos..pos + n], file[pos + n..];
      assert file[pos..] == more + rest;
      forall i | used <= i < used + n {
        buffer[i] := file[pos + i - used];
      }
      used, pos := used + n, pos + n;
      assert buffer[..used] == held + more;
      assert held + more + rest == held + (more + rest);
    }

    /** memmove of what follows the first n bytes to the front of the buffer. */
    method Drop(n: nat)
      requires Valid() && n <= used
      modifies this`used, buffer
      ensures Valid() && used == old(used) - n && buffer[..used] == old(buffer[..used])[n..]
    {
      forall i | 0 <= i < used - n {
        buffer[i] := buffer[i + n];
      }
      used := used - n;
    }

    // ---- search_marker ----

    /** What has been loaded and what is in the buffer make up what has been read. */
    ghost predicate Aligned()
      reads this, buffer
    {
      && Valid() && |loaded| + used == pos
      && loaded == file[..|loaded|] && buffer[..used] == file[|loaded|..pos]
    }

    /** No marker has been passed over, and the buffer is no more than half full but for what may start a marker. */
    ghost predicate Searching(k: nat)
      reads this, buffer
    {
      && Aligned() && seen == |loaded| && Unmarked(file, |loaded|) && Unmarked(file, pos - TEST)
      && used < BUFFER / 2 + TEST && |loaded| == k * (BUFFER / 2) && (k > 0 ==> used >= TEST)
    }

    lemma BufferSlice(a: nat, b: nat)
      requires Aligned() && a <= b <= used
      ensures buffer[a..b] == file[|loaded| + a..|loaded| + b]
    {
      SliceSlice(buffer[..], 0, used, a, b);
      SliceSlice(file, |loaded|, pos, a, b);
    }

    lemma BufferMarker(k: nat)
      requires Aligned() && k + |LAST_CMD| <= used
      ensures buffer[k..k + |LAST_CMD|] == LAST_CMD <==> MarkerAt(file, |loaded| + k)
    {
      BufferSlice(k, k + |LAST_CMD|);
    }

    /** Look for a marker among the positions that have the whole test length after them. */
    method FindMarker(limit: nat) returns (found: bool, i: nat)
      requires Aligned() && limit + TEST <= used && Unmarked(file, |loaded|)
      ensures i <= limit && Unmarked(file, |loaded| + i)
      ensures if found then i < limit && MarkerAt(file, |loaded| + i) else i == limit
    {
      for k := 0 to limit
        invariant Unmarked(file, |loaded| + k)
      {
        BufferMarker(k);
        assert buffer[k] == buffer[k..k + |LAST_CMD|][0];
        if buffer[k] == '?' && buffer[k..k + |LAST_CMD|] == LAST_CMD {
          return true, k;
        }
      }
      return false, limit;
    }

    /** Step over up to four line ends after the marker. */
    method SkipLineEnds(start: nat) returns (i: nat)
      requires Aligned() && start + FUDGE < used
      ensures start <= i <= start + FUDGE && i == start + LineEnds(file, |loaded| + start, FUDGE)
    {
      i := start;
      var j := 0;
      while j < FUDGE
        invariant 0 <= j <= FUDGE && start <= i <= start + j
        invariant if j < FUDGE then
                    i == start + j
                    && j + LineEnds(file, |loaded| + i, FUDGE - j) == LineEnds(file, |loaded| + start, FUDGE)
          else i == start + LineEnds(file, |loaded| + start, FUDGE)
      {
        assert buffer[i] == buffer[..used][i] == file[|loaded| + i];
        if buffer[i] == '\r' || buffer[i] == '\n' {
          i := i + 1;
          j := j + 1;
        } else {
          j := FUDGE;
        }
      }
    }

    /** load_katcl of the first n bytes of the buffer */
    method Load(n: nat)
      requires Aligned() && n <= used
      modifies this`loaded, this`seen
      ensures loaded == file[..|old(loaded)| + n] && seen == old(seen) + n
    {
      ghost var d := |loaded|;
      BufferSlice(0, n);
      assert file[..d] + file[d..d + n] == file[..d + n];
      loaded := loaded + buffer[..n];
      seen := seen + n;
    }

    /** Drop what has been dealt with; the rest of the buffer and of the file is the file from there on. */
    method DropTo(n: nat, ghost at: nat)
      requires Valid() && n <= used && at + n <= pos && at + used == pos && buffer[..used] == file[at..pos]
      modifies this`used, buffer
      ensures Valid() && used == old(used) - n && buffer[..used] == file[at + n..pos] && Pending() == file[at + n..]
    {
      SliceSlice(file, at, pos, n, used);
      Drop(n);
      assert file[at + n..pos] + file[pos..] == file[at + n..];
    }

    /** The marker is at a position of the buffer: load what is before it and drop it with its line ends. */
    method TakeMarker(at: nat)
      requires Aligned() && seen == |loaded| && at + TEST < used
      requires MarkerAt(file, |loaded| + at) && Unmarked(file, |loaded| + at)
      modifies this`loaded, this`used, this`seen, buffer
      ensures Valid() && Marked(file) && loaded == Commands(file) && Pending() == Image(file) && seen == 0
    {
      hide LineEnds, Marked, Commands, Image, MarkerAt, Unmarked;
      ghost var d := |loaded|;
      Divided(file, d + at);
      var i := SkipLineEnds(at + |LAST_CMD|);
      if at > 0 {
        Load(at);
      }
      DropTo(i, d);
      seen := 0;
    }

    /** Half a buffer without a marker is loaded and dropped. */
    method LoadHalf()
      requires Aligned() && seen == |loaded| && BUFFER / 2 <= used
      modifies this`loaded, this`used, this`seen, buffer
      ensures Aligned() && seen == |loaded| == |old(loaded)| + BUFFER / 2
    {
      ghost var d := |loaded|;
      Load(BUFFER / 2);
      DropTo(BUFFER / 2, d);
    }

    lemma NoMarker(k: nat)
      requires Searching(k) && pos == |file|
      ensures !Marked(file) && Halves(|file|) == k && loaded == Loaded(file) && Pending() == Upstream(file)
    {
      assert file[|loaded|..pos] + file[pos..] == file[|loaded|..];
      HalvesAre(|file|, k);
      var n := if |file| < TEST then 0 else |file| - TEST;
      FirstMarkerFar(file, 0, n);
    }

    /** A read that keeps the buffer aligned with the file. */
    method ReadAligned(ghost k: nat) returns (rr: int, failed: bool)
      requires Searching(k)
      modifies this`pos, this`inputs, this`used, buffer
      ensures Aligned() && used == old(used) + pos - old(pos) && pos >= old(pos) && (rr > 0 <==> pos > old(pos))
      ensures rr <= 0 ==> Searching(k)
      ensures failed ==> rr < 0 && Fails in old(inputs)
      ensures rr == 0 ==> pos == |file|
      ensures inputs == if old(inputs) == [] then [] else old(inputs)[1..]
      ensures rr < 0 ==> old(inputs) != []
      ensures Ready(k)
    {
      ghost var d := |loaded|;
      rr, failed := Read();
      if rr > 0 {
        assert file[d..old(pos)] + file[old(pos)..pos] == file[d..pos];
      }
    }

    /** A search that has just read, with k half buffers loaded. */
    ghost predicate Ready(k: nat)
      reads this, buffer
    {
      && Aligned() && seen == |loaded| && Unmarked(file, |loaded|)
      && |loaded| == k * (BUFFER / 2) && (k > 0 ==> used >= TEST)
    }

    /** Look at what a read has brought: the marker, or half a buffer of commands to load, or nothing yet. */
    method Judge(ghost k: nat) returns (found: bool, ghost next: nat)
      requires Ready(k)
      modifies this`loaded, this`used, this`seen, buffer
      ensures found ==> Valid() && Marked(file) && loaded == Loaded(file) && Pending() == Upstream(file) && seen == 0
      ensures !found ==> Searching(next)
    {
      next := k;
      found := false;
      if used > TEST {
        var limit := used - TEST;
        var i;
        found, i := FindMarker(limit);
        if found {
          TakeMarker(i);
        } else if limit >= BUFFER / 2 {
          LoadHalf();
          next := k + 1;
        }
      }
    }

    lemma Begun()
      requires Valid() && pos == 0 && used == 0 && seen == 0 && loaded == ""
      ensures Searching(0)
    {
    }

    lemma SearchingValid(k: nat)
      requires Searching(k)
      ensures Valid() && seen == |loaded| && pos <= |file|
    {
    }

    lemma ReadyValid(k: nat)
      requires Ready(k)
      ensures Valid()
    {
    }

    /** Returns 0 with the image pending, 1 when the file ends before a marker with what was not loaded still pending,
      * -1 when a read fails. */
    method SearchMarker() returns (result: int)
      requires Valid() && pos == 0 && used == 0 && seen == 0 && loaded == ""
      modifies this`pos, this`inputs, this`used, this`seen, this`loaded, buffer
      ensures Valid() && result in {0, 1, -1}
      ensures result >= 0 ==> loaded == Loaded(file) && Pending() == Upstream(file)
      ensures result >= 0 ==> (result == 0 <==> Marked(file)) && seen == if Marked(file) then 0 else |loaded|
      ensures result == -1 ==> Fails in old(inputs)
      ensures forall o :: o in inputs ==> o in old(inputs)
    {
      hide Marked, Loaded, Upstream, Unmarked, Pending, Searching, Ready;
      ghost var k := 0;
      Begun();
      while true
        invariant Searching(k) && |inputs| <= |old(inputs)| && inputs == old(inputs)[|old(inputs)| - |inputs|..]
        decreases |inputs|, |file| - pos
      {
        SearchingValid(k);
        var rr, failed := ReadAligned(k);
        ReadyValid(k);
        if rr < 0 {
          if failed {
            return -1;
          }
        } else if rr == 0 {
          NoMarker(k);
          return 1;
        }
        var found;
        found, k := Judge(k);
        if found {
          return 0;
        }
      }
    }

    // ---- program_bin ----

    /** write() of the buffer, with any outcome; when the outcomes run out it moves everything. */
    method Write() returns (wr: int, failed: bool)
      requires Valid() && used > 0
      modifies this`outputs, this`sent
      ensures failed == (old(outputs) != [] && old(outputs)[0].Fails?)
      ensures outputs == if old(outputs) == [] then [] else old(outputs)[1..]
      ensures wr < 0 ==> old(outputs) != [] && sent == old(sent)
      ensures wr >= 0 ==> !failed && wr <= used && sent == old(sent) + buffer[..wr]
      ensures old(outputs) == [] ==> wr == used
    {
      failed := false;
      var most := used;
      if outputs != [] {
        var first := outputs[0];
        outputs := outputs[1..];
        if !first.Moves? {
          return -1, first.Fails?;
        }
        most := if first.n < used then first.n else used;
      }
      sent := sent + buffer[..most];
      return most, false;
    }

    static lemma SplitSent(sent: string, held: string, n: nat, rest: string)
      requires n <= |held|
      ensures sent + (held + rest) == sent + held[..n] + (held[n..] + rest)
    {
      assert held == held[..n] + held[n..];
      var a, b := held[..n], held[n..];
      assert sent + (a + b + rest) == sent + a + (b + rest);
    }

    method WriteSome() returns (failed: bool)
      requires Valid() && used > 0
      modifies this`outputs, this`sent, this`used, this`seen, buffer
      ensures Valid() && sent + Pending() == old(sent + Pending()) && seen - |sent| == old(seen - |sent|)
      ensures failed ==> Fails in old(outputs)
      ensures outputs == if old(outputs) == [] then [] else old(outputs)[1..]
      ensures old(outputs) == [] ==> used == 0
    {
      var wr, error := Write();
      if wr < 0 {
        return error;
      }
      ghost var out, held, rest := buffer[..wr], buffer[wr..used], file[pos..];
      SplitSent(old(sent), buffer[..used], wr, rest);
      if wr < used {
        Drop(wr);
      } else {
        used := 0;
      }
      assert buffer[..used] == held;
      seen := seen + wr;
      return false;
    }

    /** The copy loop: everything pending goes upstream, each byte once and in order, unless a transfer fails. */
    method ProgramBin() returns (result: int)
      requires Valid() && sent == ""
      modifies this`pos, this`inputs, this`outputs, this`used, this`seen, this`sent, buffer
      ensures Valid() && sent + Pending() == old(Pending()) && seen == old(seen) + |sent|
      ensures result == 0 ==> sent == old(Pending()) && used == 0 && pos == |file|
      ensures result != 0 ==> result == -1 && (Fails in old(inputs) || Fails in old(outputs))
    {
      hide Pending;
      var run := 1;
      while run != 0
        invariant Valid() && sent + Pending() == old(Pending()) && seen == old(seen) + |sent| && run in {1, 0, -1}
        invariant run <= 0 ==> pos == |file|
        invariant run == 0 ==> used == 0
        invariant |inputs| <= |old(inputs)| && inputs == old(inputs)[|old(inputs)| - |inputs|..]
        invariant |outputs| <= |old(outputs)| && outputs == old(outputs)[|old(outputs)| - |outputs|..]
        decreases |inputs| + |outputs|, |file| - pos, run > 0, used, run != 0
      {
        if used < BUFFER / 2 && run > 0 {
          var rr, failed := Read();
          if rr < 0 {
            if failed {
              return -1;
            }
          } else if rr == 0 {
            run := -1;
          }
        }
        if used > 0 {
          var failed := WriteSome();
          if failed {
            return -1;
          }
        } else if run < 0 {
          run := 0;
        }
      }
      NothingPending();
      assert sent + "" == sent;
      return 0;
    }

    lemma NothingPending()
      requires Valid() && used == 0 && pos == |file|
      ensures Pending() == ""
    {
    }
  }

  /** The two loops as main runs them, which only gives up on a negative answer: 0, or the exit status of the failed
    * step. What is loaded and what goes upstream depend on the file alone, whatever the transfers. */
  method UploadFile(file: string, program: bool, inputs: seq<Outcome>, outputs: seq<Outcome>)
    returns (result: int, loaded: string, sent: string)
    ensures result in {0, 2, 4} && (result != 0 ==> Fails in inputs || Fails in outputs)
    ensures result == 0 ==> loaded == Loaded(file) && sent == if program then Upstream(file) else ""
    ensures sent <= Upstream(file) && (!program || result == 2 ==> sent == "")
    ensures result == 0 && program && Marked(file) ==> loaded == Commands(file) && sent == Image(file)
  {
    var u := new Upload(file, inputs, outputs);
    result := u.SearchMarker();
    if result < 0 {
      return 2, u.loaded, u.sent;
    }
    if program {
      result := u.ProgramBin();
      if result < 0 {
        return 4, u.loaded, u.sent;
      }
    }
    return 0, u.loaded, u.sent;
  }
}
