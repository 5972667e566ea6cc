/** The textual paths into composite variables: how the code cuts off one segment, and how it prints one. */
module VrblPath {
  import opened Decimal
  import opened Options

  const DELIM_TREE := ':'
  const DELIM_ARRAY := '#'
  const SPACER := '-'

  predicate Delim(c: char) {
    c == DELIM_TREE || c == DELIM_ARRAY
  }

  predicate Newline(c: char) {
    c == '\n' || c == '\r'
  }

  /** next_element_path_vrbl from position i on: the start of the next segment, 0 if there is none, -1 if malformed. */
  function NextFrom(path: string, i: nat): int
    requires i <= |path|
    decreases |path| - i
  {
    if i == |path| then (if i <= 1 then -1 else 0)
    else if Delim(path[i]) && i > 0 then (if i > 1 then i else -1)
    else if Newline(path[i]) then -1
    else NextFrom(path, i + 1)
  }

  function Next(path: string): int {
    NextFrom(path, 0)
  }

  method NextElement(path: Option<string>) returns (next: int)
    ensures next == if path.None? then -1 else Next(path.value)
  {
    if path.None? {
      return -1;
    }
    var i := 0;
    while i < |path.value|
      invariant 0 <= i <= |path.value| && NextFrom(path.value, i) == Next(path.value)
    {
      if Delim(path.value[i]) {
        if i > 1 {
          return i;
        } else if i == 1 {
          return -1;
        }
      } else if Newline(path.value[i]) {
        return -1;
      }
      i := i + 1;
    }
    if i <= 1 {
      return -1;
    }
    return 0;
  }

  /** A name that can stand between delimiters. */
  predicate Plain(s: string) {
    s != "" && forall c :: c in s ==> !Delim(c) && !Newline(c)
  }

  /** What the answer says about the path: the first segment is well formed, and where it ends. */
  lemma {:induction false} NextMeans(path: string, i: nat)
    requires i <= |path| && (forall j :: 0 < j < i ==> !Delim(path[j]))
      && (forall j :: 0 <= j < i ==> !Newline(path[j]))
    ensures var n := NextFrom(path, i);
      if n < 0 then n == -1
      else if n == 0 then |path| >= 2 && !Newline(path[0]) && Plain(path[1..])
      else 2 <= n < |path| && Delim(path[n]) && !Newline(path[0]) && Plain(path[1..n])
    decreases |path| - i
  {
    if i < |path| && !(Delim(path[i]) && i > 0) && !Newline(path[i]) {
      NextMeans(path, i + 1);
    }
  }

  /** And it finds the end of every well-formed first segment. */
  lemma {:induction false} NextFinds(path: string, n: nat, i: nat)
    requires 2 <= n <= |path| && i <= n && !Newline(path[0]) && Plain(path[1..n]) && (n < |path| ==> Delim(path[n]))
    ensures NextFrom(path, i) == if n < |path| then n else 0
    decreases n - i
  {
    if i < n {
      assert i > 0 ==> path[i] == path[1..n][i - 1];
      NextFinds(path, n, i + 1);
    }
  }

  // ---- numbers ----

  predicate Alpha(c: char) {
    'a' <= c <= 'z' || 'A' <= c <= 'Z'
  }

  const ULONG: nat := 0x1_0000_0000_0000_0000
  const UINT: nat := 0x1_0000_0000

  /** strtoul in base 10, stored in an unsigned int: white space, a sign, digits, saturation at ULONG_MAX. The second
    * component is where parsing stopped; no digits at all is no number. */
  function Strtoul(s: string): Option<(nat, nat)> {
    var w := Spaces(s);
    var sign := if w < |s| && (s[w] == '+' || s[w] == '-') then 1 else 0;
    var t := s[w + sign..];
    var k := Digits(t);
    if k == 0 then None
    else
      Some((Narrowed(sign == 1 && s[w] == '-', DecValue(t[..k])), w + sign + k))
  }

  /** The value of an unsigned long, saturated or negated as it may be, in an unsigned int. */
  function Narrowed(minus: bool, v: nat): nat {
    (if v >= ULONG then ULONG - 1 else if minus then (ULONG - v) % ULONG else v) % UINT
  }

  lemma NarrowedFits(v: nat)
    requires v < UINT
    ensures Narrowed(false, v) == v
  {
  }

  /** Which numbers are taken for the last index. */
  lemma NarrowedLast(v: nat)
    ensures Narrowed(false, v) < UINT && (Narrowed(false, v) == UINT - 1 <==> v >= ULONG || v % UINT == UINT - 1)
  {
  }

  lemma StrtoulDigits(s: string)
    requires s != "" && Digit(s[0])
    ensures var k := Digits(s); k > 0 && Strtoul(s) == Some((Narrowed(false, DecValue(s[..k])), k))
  {
    hide Narrowed, DecValue;
    assert Spaces(s) == 0 && s[0..] == s;
  }

  /** A printed number is read back, up to the width of the index; a longer one is cut off or saturates. */
  lemma StrtoulDec(n: nat, rest: string)
    requires rest != "" ==> !Digit(rest[0])
    ensures Strtoul(Dec(n) + rest) == Some((Narrowed(false, n), |Dec(n)|)) && (n < UINT ==> Narrowed(false, n) == n)
  {
    if n < UINT {
      NarrowedFits(n);
    }
    hide Narrowed, Strtoul;
    DecDigits(n);
    var s := Dec(n) + rest;
    assert s[0] == Dec(n)[0] && Dec(n)[0] in Dec(n);
    DigitsAll(Dec(n), rest);
    assert s[..|Dec(n)|] == Dec(n);
    StrtoulDigits(s);
  }

  // ---- segments ----

  datatype Seg = Key(name: string) | Index(i: nat)

  /** The first segment of a path and the path that is left, NULL after the last one. */
  datatype Head = Bad | Head(seg: Seg, rest: Option<string>)

  function Rest(path: string, next: int): Option<string>
    requires next <= |path|
  {
    if next <= 0 then None else Some(path[next..])
  }

  /** The segment that the tree operations cut off. */
  function TreeHead(path: string): Head {
    NextMeans(path, 0);
    var next := Next(path);
    if path == "" || path[0] != DELIM_TREE || next < 0 then Bad
    else Head(Key(if next == 0 then path[1..] else path[1..next]), Rest(path, next))
  }

  /** The segment that element and excise cut off at an array: a letter after the number is an error. */
  function ArrayHead(path: string): Head {
    NextMeans(path, 0);
    var next := Next(path);
    if path == "" || path[0] != DELIM_ARRAY || next < 0 then Bad
    else
      var number := Strtoul(path[1..]);
      if number.None? || (1 + number.value.1 < |path| && Alpha(path[1 + number.value.1])) then Bad
      else Head(Index(number.value.0), Rest(path, next))
  }

  /** The segment that scan cut off at an array of the given size: '-' is the index after the last one, and whatever
    * follows the number is ignored. */
  function ScanHead(path: string, size: nat): Head {
    NextMeans(path, 0);
    var next := Next(path);
    if path == "" || path[0] != DELIM_ARRAY || next < 0 then Bad
    else if path[1] == SPACER then Head(Index(size), Rest(path, next))
    else
      var number := Strtoul(path[1..]);
      if number.None? then Bad else Head(Index(number.value.0), Rest(path, next))
  }

  function ReadHead(path: string): Head {
    if path != "" && path[0] == DELIM_TREE then TreeHead(path) else ArrayHead(path)
  }

  /** What is left of a path is shorter, and is the start of a segment again. */
  lemma RestShorter(path: string, size: nat)
    ensures forall h :: h in {TreeHead(path), ArrayHead(path), ScanHead(path, size)} && h.Head? && h.rest.Some? ==>
      |h.rest.value| < |path| && h.rest.value != "" && Delim(h.rest.value[0])
  {
    NextMeans(path, 0);
  }

  lemma HeadSeg(path: string, size: nat)
    ensures TreeHead(path).Head? ==> TreeHead(path).seg.Key? && Plain(TreeHead(path).seg.name)
    ensures ArrayHead(path).Head? ==> ArrayHead(path).seg.Index? && ArrayHead(path).seg.i < UINT
    ensures ScanHead(path, size).Head? ==> ScanHead(path, size).seg.Index?
    ensures ScanHead(path, size).Head? && size < UINT ==> ScanHead(path, size).seg.i < UINT
  {
    NextMeans(path, 0);
  }

  /** The location that a path names for element and excise, if it names any. */
  function Resolve(path: Option<string>): Option<seq<Seg>>
    decreases if path.None? then 0 else |path.value| + 1
  {
    if path.None? || path.value == "" then Some([])
    else
      RestShorter(path.value, 0);
      var h := ReadHead(path.value);
      if h.Bad? then None
      else
        var more := Resolve(h.rest);
        if more.None? then None else Some([h.seg] + more.value)
  }

  // ---- printing ----

  function Print(loc: seq<Seg>): string {
    if loc == [] then "" else PrintSeg(loc[0]) + Print(loc[1..])
  }

  function PrintSeg(seg: Seg): string {
    match seg
    case Key(name) => [DELIM_TREE] + name
    case Index(i) => [DELIM_ARRAY] + Dec(i)
  }

  /** The segments that can be written down: names without delimiters or line ends, indices of one unsigned int. */
  predicate Writable(loc: seq<Seg>) {
    forall seg :: seg in loc ==> if seg.Key? then Plain(seg.name) else seg.i < UINT
  }

  lemma PrintStarts(loc: seq<Seg>)
    ensures Print(loc) == "" <==> loc == []
    ensures loc != [] ==> Delim(Print(loc)[0])
  {
  }

  lemma DecPlain(n: nat)
    ensures Plain(Dec(n))
  {
    DecDigits(n);
    assert forall c: char :: Digit(c) ==> !Delim(c) && !Newline(c);
  }

  /** Every writable location, printed, is read back as itself. */
  lemma {:induction false} PrintResolves(loc: seq<Seg>)
    requires Writable(loc)
    ensures Resolve(Some(Print(loc))) == Some(loc)
    decreases |loc|
  {
    if loc != [] {
      var rest := Print(loc[1..]);
      assert Writable(loc[1..]);
      PrintResolves(loc[1..]);
      PrintStarts(loc[1..]);
      HeadOfPrint(loc[0], rest);
      assert loc == [loc[0]] + loc[1..];
    }
  }

  lemma HeadOfPrint(seg: Seg, rest: string)
    requires Writable([seg]) && (rest != "" ==> Delim(rest[0]))
    ensures ReadHead(PrintSeg(seg) + rest) == Head(seg, if rest == "" then None else Some(rest))
  {
    assert seg in [seg];
    match seg
    case Key(name) => NextOfPrint(DELIM_TREE, name, rest);
    case Index(i) => HeadOfIndex(i, rest, 0);
  }

  lemma NextOfPrint(delim: char, body: string, rest: string)
    requires Delim(delim) && Plain(body) && (rest != "" ==> Delim(rest[0]))
    ensures var path := [delim] + body + rest;
      path[0] == delim && path[1..] == body + rest && Next(path) == (if rest == "" then 0 else 1 + |body|)
      && path[1..1 + |body|] == body && path[1 + |body|..] == rest
    ensures body + "" == body
  {
    var path, n := [delim] + body + rest, 1 + |body|;
    assert path[1..n] == body && path[n..] == rest && path[1..] == body + rest;
    NextFinds(path, n, 0);
  }

  /** The three operations on an array agree on an index that was printed. */
  lemma HeadOfIndex(i: nat, rest: string, size: nat)
    requires rest != "" ==> Delim(rest[0])
    ensures var path := PrintSeg(Index(i)) + rest;
      && ArrayHead(path) == Head(Index(Narrowed(false, i)), if rest == "" then None else Some(rest))
      && ScanHead(path, size) == ArrayHead(path) && (i < UINT ==> Narrowed(false, i) == i)
    ensures PrintSeg(Index(i))[0] == DELIM_ARRAY
  {
    hide Strtoul, Dec, NextFrom, Narrowed;
    var path := PrintSeg(Index(i)) + rest;
    DecPlain(i);
    NextOfPrint(DELIM_ARRAY, Dec(i), rest);
    StrtoulDec(i, rest);
    DecDigits(i);
    assert path[1..][0] == Dec(i)[0] && Dec(i)[0] in Dec(i);
    assert rest != "" ==> path[1 + |Dec(i)|] == rest[0];
  }

  /** Where they do not agree: after a number scan ignores whatever follows, and element and excise take it as well
    * unless a letter follows. */
  lemma Trailing(n: nat, junk: string, rest: string, size: nat)
    requires Plain(junk) && !Digit(junk[0]) && (rest != "" ==> Delim(rest[0]))
    ensures var path, h := [DELIM_ARRAY] + (Dec(n) + junk) + rest,
        Head(Index(Narrowed(false, n)), if rest == "" then None else Some(rest));
      ScanHead(path, size) == h && ArrayHead(path) == if Alpha(junk[0]) then Bad else h
  {
    hide Strtoul, Dec, NextFrom, Narrowed;
    var path := [DELIM_ARRAY] + (Dec(n) + junk) + rest;
    DecPlain(n);
    DecDigits(n);
    NextOfPrint(DELIM_ARRAY, Dec(n) + junk, rest);
    StrtoulDec(n, junk + rest);
    assert Dec(n) + junk + rest == Dec(n) + (junk + rest);
    assert path[1..][0] == Dec(n)[0] && Dec(n)[0] in Dec(n);
    assert path[1 + |Dec(n)|] == junk[0];
  }

  /** A minus sign is "append" for scan; for element and excise it wraps the number around at the width of the index. */
  lemma Minus(n: nat, rest: string, size: nat)
    requires rest != "" ==> Delim(rest[0])
    ensures var path, r := [DELIM_ARRAY] + ([SPACER] + Dec(n)) + rest, if rest == "" then None else Some(rest);
      && ScanHead(path, size) == Head(Index(size), r)
      && ArrayHead(path).Head? && ArrayHead(path).rest == r && ArrayHead(path).seg.Index?
      && var i := ArrayHead(path).seg.i; i < UINT && if n < ULONG then (i + n) % UINT == 0 else i == UINT - 1
  {
    NarrowedMinus(n);
    hide Strtoul, Dec, NextFrom, Narrowed;
    var body := [SPACER] + Dec(n);
    var path := [DELIM_ARRAY] + body + rest;
    DecPlain(n);
    NextOfPrint(DELIM_ARRAY, body, rest);
    StrtoulMinus(n, rest);
    assert body + rest == [SPACER] + (Dec(n) + rest);
    assert rest != "" ==> path[1 + |body|] == rest[0];
  }

  lemma NarrowedMinus(n: nat)
    ensures Narrowed(true, n) < UINT
    ensures if n < ULONG then (Narrowed(true, n) + n) % UINT == 0 else Narrowed(true, n) == UINT - 1
  {
  }

  lemma StrtoulMinus(n: nat, rest: string)
    requires rest != "" ==> !Digit(rest[0])
    ensures Strtoul([SPACER] + (Dec(n) + rest)) == Some((Narrowed(true, n), 1 + |Dec(n)|))
  {
    hide Narrowed;
    DecDigits(n);
    DigitsAll(Dec(n), rest);
    var s := [SPACER] + (Dec(n) + rest);
    assert s[1..] == Dec(n) + rest && (Dec(n) + rest)[..|Dec(n)|] == Dec(n) && Spaces(s) == 0;
  }

  /** White space and a plus sign before a number are skipped by all of them. */
  lemma Leading(white: string, plus: bool, n: nat, rest: string, size: nat)
    requires (forall c :: c in white ==> c == ' ' || c == '\t') && (rest != "" ==> Delim(rest[0]))
    ensures var body := white + ((if plus then "+" else "") + Dec(n));
      var path, r := [DELIM_ARRAY] + body + rest, if rest == "" then None else Some(rest);
      ArrayHead(path) == Head(Index(Narrowed(false, n)), r) && ScanHead(path, size) == ArrayHead(path)
  {
    hide Strtoul, Dec, NextFrom, Narrowed;
    var body := white + ((if plus then "+" else "") + Dec(n));
    var path := [DELIM_ARRAY] + body + rest;
    DecPlain(n);
    DecDigits(n);
    assert Plain(body);
    NextOfPrint(DELIM_ARRAY, body, rest);
    StrtoulLeading(white, plus, n, rest);
    assert body + rest == white + ((if plus then "+" else "") + (Dec(n) + rest));
    assert path[1] == body[0] && body[0] in body;
    assert rest != "" ==> path[1 + |body|] == rest[0];
    assert body[0] != SPACER by {
      assert Dec(n)[0] in Dec(n);
    }
  }

  lemma StrtoulLeading(white: string, plus: bool, n: nat, rest: string)
    requires (forall c :: c in white ==> c == ' ' || c == '\t') && (rest != "" ==> !Digit(rest[0]))
    ensures var sign := if plus then "+" else "";
      Strtoul(white + (sign + (Dec(n) + rest))) == Some((Narrowed(false, n), |white| + |sign| + |Dec(n)|))
  {
    hide Narrowed, Dec, DecValue, Strtoul;
    DecDigits(n);
    DigitsAll(Dec(n), rest);
    var t := Dec(n) + rest;
    assert t[..|Dec(n)|] == Dec(n) && Dec(n)[0] in Dec(n) && t[0] == Dec(n)[0];
    var u := (if plus then "+" else "") + t;
    assert if plus then u[0] == '+' && u[1..] == t else u == t;
    SignSkipped(white, u, plus, t);
  }

  lemma SignSkipped(white: string, u: string, plus: bool, t: string)
    requires (forall c :: c in white ==> c == ' ' || c == '\t') && t != "" && Digit(t[0])
    requires if plus then u != "" && u[0] == '+' && u[1..] == t else u == t
    ensures Digits(t) > 0
    ensures Strtoul(white + u)
      == Some((Narrowed(false, DecValue(t[..Digits(t)])), |white| + (if plus then 1 else 0) + Digits(t)))
  {
    WhiteSkipped(white, u);
    hide *;
    assert (white + u)[|white|..] == u;
    StrtoulAt(white + u, |white|, plus, t);
  }

  lemma StrtoulAt(s: string, w: nat, plus: bool, t: string)
    requires Spaces(s) == w && t != "" && Digit(t[0])
    requires if plus then s[w..] != "" && s[w..][0] == '+' && s[w..][1..] == t else s[w..] == t
    ensures Digits(t) > 0
    ensures Strtoul(s) == Some((Narrowed(false, DecValue(t[..Digits(t)])), w + (if plus then 1 else 0) + Digits(t)))
  {
    hide Narrowed, DecValue, Spaces;
    assert plus ==> s[w + 1..] == s[w..][1..];
    assert s[w] == s[w..][0];
  }

  lemma {:induction false} WhiteSkipped(white: string, u: string)
    requires (forall c :: c in white ==> c == ' ' || c == '\t') && u != "" && !Space(u[0])
    ensures Spaces(white + u) == |white|
  {
    if white == "" {
      assert white + u == u;
    } else {
      assert (white + u)[1..] == white[1..] + u && white[0] in white;
      assert forall c :: c in white[1..] ==> c in white;
      WhiteSkipped(white[1..], u);
    }
  }
}
