/** Parsing and printing of the three kinds of URL that name a peer. */
module Kurl {
  import opened Decimal
  import opened Options

  const COL := ':'
  const WAK := '/'
  const HASH := '#'

  datatype Url = Url(scheme: string, host: Option<string>, port: int, cmd: Option<string>, path: seq<string>)

  datatype State = SCHEME | HOST | PORT | PATH | CMD | TAIL

  // ---- C library ----

  function Lower(c: char): char {
    if 'A' <= c <= 'Z' then (c as int + 32) as char else c
  }

  /** strcasecmp is zero. */
  predicate SameIgnoringCase(a: string, b: string) {
    |a| == |b| && forall i :: 0 <= i < |a| ==> Lower(a[i]) == Lower(b[i])
  }

  function DecInt(n: int): string {
    if n < 0 then "-" + Dec(-n) else Dec(n)
  }

  const LONG: nat := 0x8000_0000_0000_0000
  const INT: nat := 0x8000_0000

  /** strtol in base 10: white space, a sign, digits, saturation at the range of a long. */
  function Strtol(s: string): int {
    var w := Spaces(s);
    var minus := w < |s| && s[w] == '-';
    var t := s[w + (if w < |s| && (s[w] == '+' || s[w] == '-') then 1 else 0)..];
    Saturated(minus, DecValue(t[..Digits(t)]))
  }

  function Saturated(minus: bool, v: nat): int {
    if minus then (if v > LONG then 0 - LONG else 0 - v) else if v >= LONG then LONG - 1 else v
  }

  /** atoi: the long, truncated to an int. */
  function Atoi(s: string): int {
    Truncated(Strtol(s))
  }

  function Truncated(l: int): int {
    (l + INT) % (2 * INT) - INT
  }

  lemma TruncatedFits(l: int)
    requires -(INT as int) <= l < INT
    ensures Truncated(l) == l
  {
  }

  /** Digits with nothing before them, or after a minus sign. */
  lemma StrtolPlain(t: string)
    requires t != "" && Digit(t[0])
    ensures Strtol(t) == Saturated(false, DecValue(t[..Digits(t)]))
  {
    hide Saturated, DecValue;
    assert t[0..] == t && Spaces(t) == 0;
  }

  lemma StrtolMinus(t: string)
    ensures Strtol("-" + t) == Saturated(true, DecValue(t[..Digits(t)]))
  {
    hide Saturated, DecValue;
    assert ("-" + t)[1..] == t && Spaces("-" + t) == 0;
  }

  lemma StrtolDec(t: string, m: nat)
    requires t == Dec(m)
    ensures Strtol(t) == Saturated(false, m) && Strtol("-" + t) == Saturated(true, m)
  {
    DecDigits(m);
    DigitsAll(t, "");
    hide Dec, Saturated, Strtol;
    assert t + "" == t && t[..|t|] == t && t[0] in t;
    StrtolPlain(t);
    StrtolMinus(t);
  }

  lemma AtoiDecInt(n: int)
    requires -(INT as int) <= n < INT
    ensures Atoi(DecInt(n)) == n
  {
    StrtolDec(Dec(if n < 0 then -n else n), if n < 0 then -n else n);
    hide Strtol, Truncated, Dec;
    TruncatedFits(n);
  }

  // ---- create_kurl_from_string_katcp ----

  predicate LineEnd(url: string, i: nat) {
    i < |url| && (url[i] == '\n' || url[i] == '\r')
  }

  /** The rest of the parse from position i, with the current piece starting at `start`. */
  function ParseFrom(url: string, state: State, i: nat, start: nat, slashes: nat, ku: Url): Option<Url>
    requires start <= i <= |url|
    decreases |url| - i
  {
    var piece := url[start..i];
    var nul := i == |url|;
    match state
    case SCHEME =>
      if nul then None
      else if url[i] == COL then
        var t := ku.(scheme := piece);
        if SameIgnoringCase(piece, "katcp") then ParseFrom(url, HOST, i + 1, i + 1, slashes, t)
        else if SameIgnoringCase(piece, "exec") then ParseFrom(url, CMD, i + 1, i + 1, slashes, t)
        else if SameIgnoringCase(piece, "xport") then ParseFrom(url, HOST, i + 1, i + 1, slashes, t)
        else None
      else ParseFrom(url, SCHEME, i + 1, start, slashes, ku)
    case HOST =>
      if nul then None
      else if url[i] == WAK then ParseFrom(url, HOST, i + 1, i + 1, slashes, ku)
      else if url[i] == COL then ParseFrom(url, PORT, i + 1, i + 1, slashes, ku.(host := Some(piece)))
      else ParseFrom(url, HOST, i + 1, start, slashes, ku)
    case PORT =>
      if nul || LineEnd(url, i) then Some(ku.(port := Atoi(piece)))
      else if url[i] == COL then ParseFrom(url, PORT, i + 1, i + 1, slashes, ku)
      else if url[i] == WAK then ParseFrom(url, PATH, i + 1, i + 1, slashes, ku.(port := Atoi(piece)))
      else ParseFrom(url, PORT, i + 1, start, slashes, ku)
    case PATH =>
      if nul || LineEnd(url, i) then Some(ku.(path := ku.path + [piece]))
      else ParseFrom(url, PATH, i + 1, start, slashes, ku)
    case CMD =>
      if nul then Some(ku.(cmd := Some(piece)))
      else if url[i] == HASH || LineEnd(url, i) then
        var t := ku.(cmd := Some(piece));
        if i + 1 < |url| then ParseFrom(url, TAIL, i + 1, i + 1, slashes, t) else Some(t)
      else if url[i] == WAK then
        ParseFrom(url, CMD, i + 1, if slashes + 1 < 3 then i + 1 else start, slashes + 1, ku)
      else ParseFrom(url, CMD, i + 1, start, slashes, ku)
    case TAIL =>
      if nul || LineEnd(url, i) then Some(ku.(path := ku.path + [piece]))
      else ParseFrom(url, TAIL, i + 1, start, slashes, ku)
  }

  function Blank(): Url {
    Url("", None, 0, None, [])
  }

  function Parse(url: string): Option<Url> {
    ParseFrom(url, SCHEME, 0, 0, 0, Blank())
  }

  /** The state machine as the loop it is. */
  method CreateFromString(url: Option<string>) returns (r: Option<Url>)
    ensures r == if url.None? then None else Parse(url.value)
  {
    if url.None? {
      return None;
    }
    var s := url.value;
    var ku := Blank();
    var state, spos, j, i := SCHEME, 0, 0, 0;
    while true
      invariant 0 <= spos <= i <= |s| && 0 <= j && ParseFrom(s, state, i, spos, j, ku) == Parse(s)
      decreases |s| - i
    {
      var nul := i == |s|;
      var newline := !nul && (s[i] == '\n' || s[i] == '\r');
      match state {
        case SCHEME =>
          if nul {
            return None;
          } else if s[i] == COL {
            ku := ku.(scheme := s[spos..i]);
            if SameIgnoringCase(ku.scheme, "katcp") {
              state := HOST;
            } else if SameIgnoringCase(ku.scheme, "exec") {
              state := CMD;
            } else if SameIgnoringCase(ku.scheme, "xport") {
              state := HOST;
            } else {
              return None;
            }
            spos := i + 1;
          }
        case CMD =>
          if nul || newline || s[i] == HASH {
            ku := ku.(cmd := Some(s[spos..i]));
            if i + 1 < |s| {
              state := TAIL;
            } else {
              return Some(ku);
            }
            spos := i + 1;
          } else if s[i] == WAK {
            j := j + 1;
            if j < 3 {
              spos := i + 1;
            }
          }
        case TAIL =>
          if nul || newline {
            return Some(ku.(path := ku.path + [s[spos..i]]));
          }
        case HOST =>
          if nul {
            return None;
          } else if s[i] == WAK {
            spos := i + 1;
          } else if s[i] == COL {
            ku := ku.(host := Some(s[spos..i]));
            state := PORT;
            spos := i + 1;
          }
        case PORT =>
          if nul || newline {
            return Some(ku.(port := Atoi(s[spos..i])));
          } else if s[i] == COL {
            spos := i + 1;
          } else if s[i] == WAK {
            ku := ku.(port := Atoi(s[spos..i]));
            state := PATH;
            spos := i + 1;
          }
        case PATH =>
          if nul || newline {
            return Some(ku.(path := ku.path + [s[spos..i]]));
          }
      }
      i := i + 1;
    }
  }

  // ---- copy_kurl_string_katcp with a NULL path ----

  /** A URL that can be printed has a command or a host. */
  function Print(ku: Url): string
    requires ku.cmd.Some? || ku.host.Some?
  {
    if ku.cmd.Some? then ku.scheme + "://" + ku.cmd.value
    else ku.scheme + "://" + ku.host.value + ":" + DecInt(ku.port) + "/"
  }

  // ---- round trips ----

  predicate Without(s: string, c: char) {
    c !in s
  }

  /** In state SCHEME everything up to the next colon is skipped; likewise in the other states up to their ends. */
  lemma {:induction false} SkipScheme(url: string, i: nat, n: nat, ku: Url)
    requires i <= n < |url| && (forall k :: i <= k < n ==> url[k] != COL)
    ensures ParseFrom(url, SCHEME, i, 0, 0, ku) == ParseFrom(url, SCHEME, n, 0, 0, ku)
    decreases n - i
  {
    if i < n {
      SkipScheme(url, i + 1, n, ku);
    }
  }

  lemma {:induction false} SkipHost(url: string, i: nat, n: nat, start: nat, ku: Url)
    requires start <= i <= n < |url| && (forall k :: i <= k < n ==> url[k] != COL && url[k] != WAK)
    ensures ParseFrom(url, HOST, i, start, 0, ku) == ParseFrom(url, HOST, n, start, 0, ku)
    decreases n - i
  {
    if i < n {
      SkipHost(url, i + 1, n, start, ku);
    }
  }

  lemma {:induction false} SkipPort(url: string, i: nat, n: nat, start: nat, ku: Url)
    requires start <= i <= n < |url|
    requires forall k :: i <= k < n ==> url[k] != COL && url[k] != WAK && !LineEnd(url, k)
    ensures ParseFrom(url, PORT, i, start, 0, ku) == ParseFrom(url, PORT, n, start, 0, ku)
    decreases n - i
  {
    if i < n {
      SkipPort(url, i + 1, n, start, ku);
    }
  }

  lemma {:induction false} SkipCommand(url: string, i: nat, n: nat, start: nat, slashes: nat, ku: Url) returns (m: nat)
    requires start <= i <= n <= |url| && slashes >= 2
    requires forall k :: i <= k < n ==> url[k] != HASH && !LineEnd(url, k)
    ensures ParseFrom(url, CMD, i, start, slashes, ku) == ParseFrom(url, CMD, n, start, m, ku) && m >= 2
    decreases n - i
  {
    m := slashes;
    if i < n {
      m := SkipCommand(url, i + 1, n, start, if url[i] == WAK then slashes + 1 else slashes, ku);
    }
  }

  /** A host is stored once and never changed again; nor is a command. */
  lemma {:induction false} HostKept(url: string, state: State, i: nat, start: nat, slashes: nat, ku: Url)
    requires start <= i <= |url| && (state.PORT? || state.PATH?)
    ensures var r := ParseFrom(url, state, i, start, slashes, ku); r.Some? ==> r.value.host == ku.host
    decreases |url| - i
  {
    if i < |url| && !LineEnd(url, i) {
      if state.PATH? || url[i] != WAK {
        HostKept(url, state, i + 1, if state.PORT? && url[i] == COL then i + 1 else start, slashes, ku);
      } else {
        HostKept(url, PATH, i + 1, i + 1, slashes, ku.(port := Atoi(url[start..i])));
      }
    }
  }

  lemma {:induction false} CommandKept(url: string, i: nat, start: nat, slashes: nat, ku: Url)
    requires start <= i <= |url|
    ensures var r := ParseFrom(url, TAIL, i, start, slashes, ku); r.Some? ==> r.value.cmd == ku.cmd
    decreases |url| - i
  {
    if i < |url| && !LineEnd(url, i) {
      CommandKept(url, i + 1, start, slashes, ku);
    }
  }

  predicate HostScheme(s: string) {
    SameIgnoringCase(s, "katcp") || SameIgnoringCase(s, "xport")
  }

  lemma SchemeHasNoColon(s: string)
    requires HostScheme(s) || SameIgnoringCase(s, "exec")
    ensures forall k :: 0 <= k < |s| ==> s[k] != COL
  {
    forall k | 0 <= k < |s|
      ensures s[k] != COL
    {
      assert Lower(COL) == COL;
      assert HostScheme(s) ==> Lower(s[k]) == Lower("katcp"[k]) || Lower(s[k]) == Lower("xport"[k]);
    }
  }

  /** The printed text of a URL with a host reaches the host in state HOST. */
  lemma ReachHost(s: string, rest: string)
    requires HostScheme(s)
    ensures var url, n := s + "://" + rest, |s| + 3;
      Parse(url) == ParseFrom(url, HOST, n, n, 0, Blank().(scheme := s))
  {
    var url, n := s + "://" + rest, |s|;
    SchemeHasNoColon(s);
    SkipScheme(url, 0, n, Blank());
    assert url[..n] == s && url[n] == COL && url[n + 1] == WAK && url[n + 2] == WAK;
    var t := Blank().(scheme := s);
    assert SameIgnoringCase(s, "exec") ==> |s| == 4;
    assert ParseFrom(url, SCHEME, n, 0, 0, Blank()) == ParseFrom(url, HOST, n + 1, n + 1, 0, t);
    assert ParseFrom(url, HOST, n + 1, n + 1, 0, t) == ParseFrom(url, HOST, n + 2, n + 2, 0, t);
  }

  /** And the port in state PORT, with the host stored. */
  lemma ReachPort(s: string, h: string, rest: string)
    requires HostScheme(s) && Without(h, COL) && Without(h, WAK)
    ensures var url, m := s + "://" + (h + ":" + rest), |s| + 3 + |h| + 1;
      m <= |url| && url[m..] == rest
      && Parse(url) == ParseFrom(url, PORT, m, m, 0, Blank().(scheme := s, host := Some(h)))
  {
    var after := h + ":" + rest;
    var url, n := s + "://" + after, |s| + 3;
    var m := n + |h|;
    ReachHost(s, after);
    assert url[n..] == after;
    assert forall k :: n <= k < |url| ==> url[k] == after[k - n];
    assert url[n..m] == h && url[m] == COL && url[m + 1..] == rest;
    hide HostScheme;
    SkipHost(url, n, m, n, Blank().(scheme := s));
  }

  lemma DecIntChars(n: int)
    ensures forall c :: c in DecInt(n) ==> Digit(c) || c == '-'
  {
    DecDigits(if n < 0 then -n else n);
  }

  /** And only then: with a colon or a slash in it the host comes back shorter. */
  lemma HostRoundTripOnly(ku: Url)
    requires ku.cmd.None? && ku.host.Some? && HostScheme(ku.scheme)
    requires !Without(ku.host.value, COL) || !Without(ku.host.value, WAK)
    ensures Parse(Print(ku)).Some? ==> Parse(Print(ku)).value.host != ku.host
  {
    var h := ku.host.value;
    var rest := h + ":" + DecInt(ku.port) + "/";
    var url := ku.scheme + "://" + rest;
    var n := |ku.scheme| + 3;
    assert Print(ku) == url;
    ReachHost(ku.scheme, rest);
    assert forall k :: n <= k < n + |h| ==> url[k] == h[k - n];
    assert url[n + |h|] == COL;
    var c := if Without(h, COL) then WAK else COL;
    assert c in h;
    var k :| 0 <= k < |h| && h[k] == c;
    assert url[n + k] == c;
    ShortHost(url, n, n, n, n + |h|, Blank().(scheme := ku.scheme));
  }

  /** Between `from` and `last` there is a colon or a slash, or a slash has been met before. */
  lemma {:induction false} ShortHost(url: string, from: nat, i: nat, start: nat, last: nat, ku: Url)
    requires from <= start <= i <= last < |url| && url[last] == COL
    requires start > from || exists k :: i <= k < last && (url[k] == COL || url[k] == WAK)
    ensures var r := ParseFrom(url, HOST, i, start, 0, ku);
      r.Some? ==> r.value.host.Some? && |r.value.host.value| < last - from
    decreases last - i
  {
    if url[i] == COL {
      HostKept(url, PORT, i + 1, i + 1, 0, ku.(host := Some(url[start..i])));
    } else if url[i] == WAK {
      ShortHost(url, from, i + 1, i + 1, last, ku);
    } else {
      ShortHost(url, from, i + 1, start, last, ku);
    }
  }

  predicate PlainCommand(s: string) {
    Without(s, HASH) && Without(s, '\n') && Without(s, '\r')
  }

  lemma ReachCommand(s: string, rest: string)
    requires SameIgnoringCase(s, "exec")
    ensures var url, n := s + "://" + rest, |s| + 3;
      Parse(url) == ParseFrom(url, CMD, n, n, 2, Blank().(scheme := s))
  {
    var url, n := s + "://" + rest, |s|;
    SchemeHasNoColon(s);
    SkipScheme(url, 0, n, Blank());
    assert url[..n] == s && url[n] == COL && url[n + 1] == WAK && url[n + 2] == WAK;
    var t := Blank().(scheme := s);
    assert !SameIgnoringCase(s, "katcp");
    assert ParseFrom(url, SCHEME, n, 0, 0, Blank()) == ParseFrom(url, CMD, n + 1, n + 1, 0, t);
    assert ParseFrom(url, CMD, n + 1, n + 1, 0, t) == ParseFrom(url, CMD, n + 2, n + 2, 1, t);
    assert ParseFrom(url, CMD, n + 2, n + 2, 1, t) == ParseFrom(url, CMD, n + 3, n + 3, 2, t);
  }

  /** Parsing a printed exec URL gives back its command exactly when that has no hash and no line end. */
  lemma CommandRoundTrip(ku: Url)
    requires ku.cmd.Some? && SameIgnoringCase(ku.scheme, "exec")
    ensures Parse(Print(ku)).Some?
    ensures Parse(Print(ku)).value.cmd == ku.cmd <==> PlainCommand(ku.cmd.value)
  {
    var s := ku.cmd.value;
    var url := ku.scheme + "://" + s;
    var n := |ku.scheme| + 3;
    ReachCommand(ku.scheme, s);
    assert url[n..] == s;
    CommandParsed(url, n, s, Blank().(scheme := ku.scheme));
  }

  lemma CommandParsed(url: string, n: nat, s: string, t: Url)
    requires n <= |url| && url[n..] == s
    ensures var r := ParseFrom(url, CMD, n, n, 2, t);
      r.Some? && (r.value.cmd == Some(s) <==> PlainCommand(s))
  {
    assert forall k :: n <= k < |url| ==> url[k] == s[k - n];
    if PlainCommand(s) {
      var m := SkipCommand(url, n, |url|, n, 2, t);
      assert url[n..|url|] == s;
    } else {
      var e := FirstEnd(url, n);
      var m := SkipCommand(url, n, e, n, 2, t);
      if e + 1 < |url| {
        CommandKept(url, e + 1, e + 1, m, t.(cmd := Some(url[n..e])));
        TailParses(url, e + 1, e + 1, m, t.(cmd := Some(url[n..e])));
      }
    }
  }

  lemma {:induction false} FirstEnd(url: string, i: nat) returns (e: nat)
    requires exists k :: i <= k < |url| && (url[k] == HASH || LineEnd(url, k))
    ensures i <= e < |url| && (url[e] == HASH || LineEnd(url, e))
    ensures forall k :: i <= k < e ==> url[k] != HASH && !LineEnd(url, k)
    decreases |url| - i
  {
    if url[i] == HASH || LineEnd(url, i) {
      e := i;
    } else {
      e := FirstEnd(url, i + 1);
    }
  }

  lemma {:induction false} TailParses(url: string, i: nat, start: nat, slashes: nat, ku: Url)
    requires start <= i <= |url|
    ensures ParseFrom(url, TAIL, i, start, slashes, ku).Some?
    decreases |url| - i
  {
    if i < |url| && !LineEnd(url, i) {
      TailParses(url, i + 1, start, slashes, ku);
    }
  }

  // ---- what follows the port, or the command ----

  /** The text of a path, up to the end or a line end. */
  predicate PathText(x: string, tail: string) {
    (forall c :: c in x ==> c != '\n' && c != '\r') && (tail != "" ==> tail[0] == '\n' || tail[0] == '\r')
  }

  lemma {:induction false} SkipPath(url: string, state: State, i: nat, n: nat, start: nat, slashes: nat, ku: Url)
    requires start <= i <= n <= |url| && (state.PATH? || state.TAIL?) && forall k :: i <= k < n ==> !LineEnd(url, k)
    ensures ParseFrom(url, state, i, start, slashes, ku) == ParseFrom(url, state, n, start, slashes, ku)
    decreases n - i
  {
    if i < n {
      SkipPath(url, state, i + 1, n, start, slashes, ku);
    }
  }

  lemma PathTaken(url: string, state: State, i: nat, slashes: nat, x: string, tail: string, u: Url)
    requires i <= |url| && url[i..] == x + tail && PathText(x, tail) && (state.PATH? || state.TAIL?) && u.path == []
    ensures ParseFrom(url, state, i, i, slashes, u) == Some(u.(path := [x]))
  {
    var n := i + |x|;
    assert forall k :: i <= k < |url| ==> url[k] == (x + tail)[k - i];
    assert url[i..n] == x;
    forall k | i <= k < n
      ensures !LineEnd(url, k)
    {
      assert url[k] == x[k - i] && x[k - i] in x;
    }
    SkipPath(url, state, i, n, i, slashes, u);
    assert tail != "" ==> url[n] == tail[0];
    assert [] + [x] == [x];
  }

  lemma Printed(ku: Url, x: string, tail: string)
    requires ku.cmd.None? && ku.host.Some?
    ensures Print(ku) + x + tail
      == ku.scheme + "://" + (ku.host.value + ":" + (DecInt(ku.port) + ("/" + (x + tail))))
  {
    var s, h, p := ku.scheme + "://", ku.host.value + ":", DecInt(ku.port);
    hide DecInt;
    assert Print(ku) == s + (h + (p + "/"));
    assert s + (h + (p + "/")) + x + tail == s + (h + (p + ("/" + (x + tail))));
  }

  /** A printed URL followed by the text of a path: all of it up to a line end, slashes and colons included, is the
    * path. */
  lemma PathRoundTrip(ku: Url, x: string, tail: string)
    requires ku.cmd.None? && ku.host.Some? && HostScheme(ku.scheme) && -(INT as int) <= ku.port < INT
    requires Without(ku.host.value, COL) && Without(ku.host.value, WAK) && PathText(x, tail)
    ensures Parse(Print(ku) + x + tail) == Some(ku.(path := [x]))
  {
    Printed(ku, x, tail);
    ReachPort(ku.scheme, ku.host.value, DecInt(ku.port) + ("/" + (x + tail)));
    PortAndPath(ku.scheme + "://" + (ku.host.value + ":" + (DecInt(ku.port) + ("/" + (x + tail)))),
                |ku.scheme| + 3 + |ku.host.value| + 1, ku.port, x, tail,
                Blank().(scheme := ku.scheme, host := ku.host));
    hide *;
  }

  lemma PortAndPath(url: string, m: nat, port: int, x: string, tail: string, u: Url)
    requires -(INT as int) <= port < INT && PathText(x, tail) && u.path == []
    requires m <= |url| && url[m..] == DecInt(port) + ("/" + (x + tail))
    ensures ParseFrom(url, PORT, m, m, 0, u) == Some(u.(port := port, path := [x]))
  {
    var n := m + |DecInt(port)| + 1;
    PortTaken(url, m, port, "/" + (x + tail), u);
    assert url[n..] == url[m..][n - m..];
    hide DecInt, ParseFrom;
    assert url[n..] == x + tail;
    PathTaken(url, PATH, n, 0, x, tail, u.(port := port));
  }

  /** Parsing a printed katcp or xport URL whose host has neither colon nor slash gives it back, with an empty path. */
  lemma HostRoundTrip(ku: Url)
    requires ku.cmd.None? && ku.host.Some? && HostScheme(ku.scheme) && -(INT as int) <= ku.port < INT
    requires Without(ku.host.value, COL) && Without(ku.host.value, WAK)
    ensures Parse(Print(ku)) == Some(ku.(path := [""]))
  {
    PathRoundTrip(ku, "", "");
    assert Print(ku) + "" + "" == Print(ku);
  }

  lemma PortTaken(url: string, i: nat, port: int, rest: string, u: Url)
    requires -(INT as int) <= port < INT && i <= |url| && url[i..] == DecInt(port) + rest && rest != ""
      && rest[0] == WAK
    ensures var n := i + |DecInt(port)|;
      n < |url| && ParseFrom(url, PORT, i, i, 0, u) == ParseFrom(url, PATH, n + 1, n + 1, 0, u.(port := port))
  {
    var p := DecInt(port);
    var n := i + |p|;
    DecIntChars(port);
    AtoiDecInt(port);
    hide DecInt, Atoi;
    assert forall k :: i <= k < |url| ==> url[k] == url[i..][k - i];
    assert url[n] == WAK && url[i..n] == p;
    forall k | i <= k < n
      ensures url[k] != COL && url[k] != WAK && !LineEnd(url, k)
    {
      assert url[k] == p[k - i] && p[k - i] in p;
    }
    SkipPort(url, i, n, i, u);
  }

  /** Without a slash after the port there is no path; the port ends with the text or at a line end. */
  lemma PortEnds(s: string, h: string, port: int, tail: string)
    requires HostScheme(s) && Without(h, COL) && Without(h, WAK) && -(INT as int) <= port < INT && PathText("", tail)
    ensures Parse(s + "://" + (h + ":" + (DecInt(port) + tail))) == Some(Url(s, Some(h), port, None, []))
  {
    var p := DecInt(port);
    var url, m := s + "://" + (h + ":" + (p + tail)), |s| + 3 + |h| + 1;
    ReachPort(s, h, p + tail);
    DecIntChars(port);
    AtoiDecInt(port);
    var n := m + |p|;
    assert forall k :: m <= k < |url| ==> url[k] == url[m..][k - m];
    assert url[m..n] == p && url[n..] == tail;
    hide DecInt, Atoi, Parse, HostScheme;
    forall k | m <= k < n
      ensures url[k] != COL && url[k] != WAK && !LineEnd(url, k)
    {
      assert url[k] == p[k - m] && p[k - m] in p;
    }
    SkipToEnd(url, m, n, m, Blank().(scheme := s, host := Some(h)));
  }

  lemma {:induction false} SkipToEnd(url: string, i: nat, n: nat, start: nat, ku: Url)
    requires start <= i <= n <= |url| && (n < |url| ==> LineEnd(url, n))
    requires forall k :: i <= k < n ==> url[k] != COL && url[k] != WAK && !LineEnd(url, k)
    ensures ParseFrom(url, PORT, i, start, 0, ku) == Some(ku.(port := Atoi(url[start..n])))
    decreases n - i
  {
    if i < n {
      SkipToEnd(url, i + 1, n, start, ku);
    }
  }

  /** A colon in the port starts it anew. */
  lemma {:induction false} PortAnew(url: string, i: nat, n: nat, start: nat, ku: Url)
    requires start <= i <= n < |url| && url[n] == COL
    requires forall k :: i <= k < n ==> url[k] != WAK && !LineEnd(url, k)
    ensures ParseFrom(url, PORT, i, start, 0, ku) == ParseFrom(url, PORT, n + 1, n + 1, 0, ku)
    decreases n - i
  {
    if i < n {
      PortAnew(url, i + 1, n, if url[i] == COL then i + 1 else start, ku);
    }
  }

  /** And after a plain command a hash or a line end starts the path. */
  lemma TailRoundTrip(ku: Url, sep: char, x: string, tail: string)
    requires ku.cmd.Some? && SameIgnoringCase(ku.scheme, "exec") && PlainCommand(ku.cmd.value) && PathText(x, tail)
    requires sep == HASH || sep == '\n' || sep == '\r'
    ensures Parse(Print(ku) + [sep] + (x + tail))
      == Some(Url(ku.scheme, None, 0, ku.cmd, if x + tail == "" then [] else [x]))
  {
    var s := ku.cmd.value;
    var rest := s + [sep] + (x + tail);
    var url := ku.scheme + "://" + rest;
    var n := |ku.scheme| + 3;
    var e := n + |s|;
    assert Print(ku) + [sep] + (x + tail) == url;
    ReachCommand(ku.scheme, rest);
    assert forall k :: n <= k < |url| ==> url[k] == rest[k - n];
    forall k | n <= k < e
      ensures url[k] != HASH && !LineEnd(url, k)
    {
      assert url[k] == s[k - n] && s[k - n] in s;
    }
    var t := Blank().(scheme := ku.scheme);
    var m := SkipCommand(url, n, e, n, 2, t);
    assert url[n..e] == s && url[e] == sep && url[e + 1..] == x + tail;
    if e + 1 < |url| {
      PathTaken(url, TAIL, e + 1, m, x, tail, t.(cmd := Some(s)));
    }
  }

  // ---- containing_kurl_katcp ----

  /** What a string has to start with: the scheme is fixed, and of the port only seven characters count. */
  function Canonical(ku: Url): string
    requires ku.host.Some? || ku.cmd.Some?
  {
    if ku.host.Some? then
      "katcp://" + ku.host.value + ":" + (if |DecInt(ku.port)| > 7 then DecInt(ku.port)[..7] else DecInt(ku.port))
    else "exec://" + ku.cmd.value
  }

  method PrefixMatch(target: string, prefix: string) returns (len: int)
    ensures len == if prefix <= target then |prefix| else -1
  {
    for i := 0 to |prefix|
      invariant prefix[..i] <= target
    {
      if i >= |target| || prefix[i] != target[i] {
        return -1;
      }
      assert prefix[..i + 1] == prefix[..i] + [prefix[i]] == target[..i + 1];
    }
    assert prefix[..|prefix|] == prefix;
    return |prefix|;
  }

  /** The part after the scheme: host, colon and port. */
  method AfterScheme(s: string, host: string, buffer: string) returns (len: int)
    ensures len == if host + ":" + buffer <= s then |host + ":" + buffer| else -1
  {
    Prefixes(host, ":" + buffer, s);
    assert host + ":" + buffer == host + (":" + buffer);
    var offset := PrefixMatch(s, host);
    if offset < 0 {
      return -1;
    }
    Prefixes(":", buffer, s[offset..]);
    if offset >= |s| || s[offset] != ':' {
      return -1;
    }
    offset := offset + 1;
    assert s[offset - 1..][1..] == s[offset..] && ":" <= s[offset - 1..];
    len := PrefixMatch(s[offset..], buffer);
    if len >= 0 {
      len := offset + len;
    }
  }

  /** Accepts exactly the strings with the canonical prefix, and returns its length. */
  method Containing(ku: Url, text: Option<string>) returns (offset: int)
    ensures offset ==
      if text.Some? && (ku.host.Some? || ku.cmd.Some?) && Canonical(ku) <= text.value then |Canonical(ku)| else 0
  {
    if text.None? {
      return 0;
    }
    var s, len := text.value, -1;
    if ku.host.Some? {
      var port := DecInt(ku.port);
      var buffer := if |port| > 7 then port[..7] else port;
      Prefixes("katcp://", ku.host.value + ":" + buffer, s);
      assert Canonical(ku) == "katcp://" + (ku.host.value + ":" + buffer);
      if !("katcp://" <= s) {
        return 0;
      }
      offset := 8;
      len := AfterScheme(s[offset..], ku.host.value, buffer);
    } else if ku.cmd.Some? {
      Prefixes("exec://", ku.cmd.value, s);
      if !("exec://" <= s) {
        return 0;
      }
      offset := 7;
      len := PrefixMatch(s[offset..], ku.cmd.value);
    } else {
      return 0;
    }
    if len < 0 {
      return 0;
    }
    offset := offset + len;
  }

  lemma Prefixes(a: string, b: string, s: string)
    ensures a + b <= s <==> a <= s && b <= s[if |a| <= |s| then |a| else |s|..]
  {
    if a <= s && b <= s[|a|..] {
      assert s == a + s[|a|..];
    }
    if a + b <= s {
      assert s == a + b + s[|a + b|..] && s[|a|..] == b + s[|a + b|..];
    }
  }

  /** A URL with a host contains its own printed form exactly when its scheme is spelled katcp, never when it is
    * xport. */
  lemma ContainsItself(ku: Url)
    requires ku.host.Some? && ku.cmd.None? && HostScheme(ku.scheme)
    ensures Canonical(ku) <= Print(ku) <==> ku.scheme == "katcp"
  {
    var p, h := DecInt(ku.port), ku.host.value;
    var port := if |p| > 7 then p[..7] else p;
    SchemeHasNoColon(ku.scheme);
    if ku.scheme == "katcp" {
      assert Print(ku) == Canonical(ku) + (p[|port|..] + "/");
    }
    if Canonical(ku) <= Print(ku) {
      assert Canonical(ku)[..5] == "katcp";
      assert Print(ku)[..5] == Canonical(ku)[..5];
      assert Print(ku)[..5] == ku.scheme;
    }
  }
}
