/** How a connection serialises requests that its client sends without waiting for replies. */
module Pipeline {
  import opened Options

  /** A message is known by its kind and by the request it makes or answers. */
  datatype Msg = Request(name: string) | Reply(name: string, ok: bool) | Inform(name: string)

  const FLUSH_DEFER: nat := 8

  /** The connection with its two endpoints: `peer` holds what the client sent and the handler has not seen, `busy` the
    * requests the handler is working on, `remote` what is to be sent to the client and `line` what has been sent. */
  datatype State = State(
    outside: bool, own: bool, crashing: bool, open: bool, group: Option<nat>, maxDefer: nat,
    defer: seq<Msg>, peer: seq<Msg>, busy: seq<string>, remote: seq<Msg>, line: seq<Msg>, received: seq<string>)
  {
    function Limit(): nat {
      if group.Some? then group.value else FLUSH_DEFER
    }
  }

  function Start(group: Option<nat>): State {
    State(false, false, false, true, group, 0, [], [], [], [], [], [])
  }

  function Turned(m: Msg): Msg {
    Reply(m.name, false)
  }

  function TurnedAll(q: seq<Msg>): seq<Msg> {
    if q == [] then [] else [Turned(q[0])] + TurnedAll(q[1..])
  }

  /** The requests made, and the requests answered, by a list of messages. */
  function Requested(q: seq<Msg>): seq<string> {
    if q == [] then [] else (if q[0].Request? then [q[0].name] else []) + Requested(q[1..])
  }

  function Replied(q: seq<Msg>): seq<string> {
    if q == [] then [] else (if q[0].Reply? then [q[0].name] else []) + Replied(q[1..])
  }

  // ---- one message from the client, in run_flat_katcp ----

  function ToPeer(s: State, m: Msg): State {
    if s.open then s.(peer := s.peer + [m]) else s.(crashing := true)
  }

  function Max(a: nat, b: nat): nat {
    if a < b then b else a
  }

  function Receive(s: State, m: Msg): State {
    match m
    case Reply(_, _) => ToPeer(s.(own := false), m)
    case Inform(_) => ToPeer(s, m)
    case Request(name) =>
      var t := s.(received := s.received + [name]);
      if s.outside then t.(defer := s.defer + [m], maxDefer := Max(s.maxDefer, |s.defer| + 1))
      else ToPeer(t.(outside := true), m)
  }

  // ---- one message for the client, wake_endpoint_remote_flat_katcp ----

  function AfterReply(s: State): State {
    if |s.defer| == 0 then s.(outside := false)
    else if |s.defer| > s.Limit() then s.(line := s.line + TurnedAll(s.defer), defer := [], outside := false)
    else ToPeer(s.(defer := s.defer[1..]), s.defer[0])
  }

  function WakeRemote(s: State): State
    requires s.remote != []
  {
    var m, t := s.remote[0], s.(remote := s.remote[1..]);
    if s.crashing then t
    else
      var u := t.(line := s.line + [m]);
      match m
      case Request(_) => u.(own := true)
      case Reply(_, _) => AfterReply(u)
      case Inform(_) => u
  }

  // ---- the handler behind the connection ----

  /** The handler takes up the first message at its endpoint. */
  function TakeUp(s: State): State
    requires s.peer != []
  {
    var m, t := s.peer[0], s.(peer := s.peer[1..]);
    if m.Request? then t.(busy := s.busy + [m.name]) else t
  }

  /** The handler answers a request it has taken up. */
  function Answer(s: State, i: nat, ok: bool): State
    requires i < |s.busy|
  {
    s.(busy := s.busy[..i] + s.busy[i + 1..], remote := s.remote + [Reply(s.busy[i], ok)])
  }

  // ---- invariant ----

  /** The requests that have left the defer queue and not been answered on the line, oldest first. */
  function Outstanding(s: State): seq<string> {
    Replied(s.remote) + s.busy + Requested(s.peer)
  }

  predicate AllRequests(q: seq<Msg>) {
    forall m :: m in q ==> m.Request?
  }

  /** The requests received are those answered, then the one outstanding, then those deferred, in that order. */
  predicate Serial(s: State) {
    && s.received == Replied(s.line) + Outstanding(s) + Requested(s.defer)
    && |Outstanding(s)| == (if s.outside then 1 else 0)
    && (!s.outside ==> s.defer == [])
    && AllRequests(s.defer) && |s.defer| <= s.maxDefer
  }

  lemma {:induction false} RequestedConcat(a: seq<Msg>, b: seq<Msg>)
    ensures Requested(a + b) == Requested(a) + Requested(b)
  {
    if a == [] {
      assert a + b == b;
    } else {
      RequestedConcat(a[1..], b);
      assert (a + b)[1..] == a[1..] + b && (a + b)[0] == a[0];
      Regroup([], if a[0].Request? then [a[0].name] else [], Requested(a[1..]), Requested(b));
    }
  }

  lemma {:induction false} RepliedConcat(a: seq<Msg>, b: seq<Msg>)
    ensures Replied(a + b) == Replied(a) + Replied(b)
  {
    if a == [] {
      assert a + b == b;
    } else {
      RepliedConcat(a[1..], b);
      assert (a + b)[1..] == a[1..] + b;
    }
  }

  lemma One(m: Msg)
    ensures Requested([m]) == (if m.Request? then [m.name] else [])
      && Replied([m]) == (if m.Reply? then [m.name] else [])
  {
    assert [m][1..] == [];
  }

  /** Cancelling answers the deferred requests in their order. */
  lemma {:induction false} TurnedReplied(q: seq<Msg>)
    requires AllRequests(q)
    ensures Replied(TurnedAll(q)) == Requested(q)
  {
    if q != [] {
      TurnedReplied(q[1..]);
    }
  }

  /** What is passed on to the handler is outstanding if it is a request. */
  lemma ToPeerOutstanding(s: State, m: Msg)
    requires s.open
    ensures Outstanding(ToPeer(s, m)) == Outstanding(s) + if m.Request? then [m.name] else []
  {
    RequestedConcat(s.peer, [m]);
    One(m);
    hide Requested, Replied;
    Regroup(Replied(s.remote), s.busy, Requested(s.peer), Requested([m]));
  }

  lemma ReceiveSerial(s: State, m: Msg)
    requires Serial(s) && !s.crashing
    ensures Receive(s, m).crashing || Serial(Receive(s, m))
  {
    if m.Request? && s.outside {
      DeferSerial(s, m);
    } else if s.open {
      ToPeerOutstanding(s, m);
      assert !s.outside ==> Requested(s.defer) == [];
      hide Requested, Replied;
      assert Outstanding(Receive(s, m)) == Outstanding(ToPeer(s, m));
    }
  }

  lemma DeferSerial(s: State, m: Msg)
    requires Serial(s) && s.outside && m.Request?
    ensures Serial(Receive(s, m))
  {
    RequestedConcat(s.defer, [m]);
    One(m);
    hide Requested, Replied;
    assert Outstanding(Receive(s, m)) == Outstanding(s);
    assert forall x :: x in s.defer + [m] ==> x in s.defer || x == m;
  }

  lemma CancelSerial(s: State)
    requires Outstanding(s) == [] && AllRequests(s.defer) && s.received == Replied(s.line) + Requested(s.defer)
    ensures Serial(s.(line := s.line + TurnedAll(s.defer), defer := [], outside := false))
  {
    RepliedConcat(s.line, TurnedAll(s.defer));
    TurnedReplied(s.defer);
    var t := s.(line := s.line + TurnedAll(s.defer), defer := [], outside := false);
    assert Outstanding(t) == Outstanding(s);
  }

  lemma ResumeSerial(s: State)
    requires s.outside && s.open && Outstanding(s) == [] && AllRequests(s.defer) && |s.defer| <= s.maxDefer
      && s.defer != []
    requires s.received == Replied(s.line) + Requested(s.defer)
    ensures Serial(ToPeer(s.(defer := s.defer[1..]), s.defer[0]))
  {
    var m, u := s.defer[0], s.(defer := s.defer[1..]);
    assert m in s.defer && Requested(s.defer) == [m.name] + Requested(u.defer);
    hide Requested, Replied;
    assert Outstanding(u) == Outstanding(s);
    ToPeerOutstanding(u, m);
  }

  lemma AfterReplySerial(s: State)
    requires s.outside && Outstanding(s) == [] && AllRequests(s.defer) && |s.defer| <= s.maxDefer
    requires s.received == Replied(s.line) + Requested(s.defer)
    ensures AfterReply(s).crashing || Serial(AfterReply(s))
  {
    if s.defer == [] {
      assert Outstanding(s.(outside := false)) == [];
    } else if |s.defer| > s.Limit() {
      CancelSerial(s);
    } else if s.open {
      ResumeSerial(s);
    }
  }

  lemma FirstRemote(s: State)
    requires s.remote != []
    ensures Replied(s.remote) == Replied([s.remote[0]]) + Replied(s.remote[1..])
  {
    One(s.remote[0]);
  }

  lemma WakeRemoteSerial(s: State)
    requires Serial(s) && !s.crashing && s.remote != []
    ensures WakeRemote(s).crashing || Serial(WakeRemote(s))
  {
    var m, t := s.remote[0], s.(remote := s.remote[1..]);
    var u := t.(line := s.line + [m]);
    Moved(s);
    hide Requested, Replied, Outstanding;
    if m.Reply? {
      AfterReplySerial(u);
    }
  }

  /** A message for the client moves to the line: a reply is the answer to the one request outstanding. */
  lemma Moved(s: State)
    requires Serial(s) && s.remote != []
    ensures var m := s.remote[0];
      var u := s.(remote := s.remote[1..], line := s.line + [m]);
      if m.Reply? then s.outside && Outstanding(u) == [] && u.received == Replied(u.line) + Requested(u.defer)
      else Serial(u) && Serial(u.(own := true))
  {
    var m := s.remote[0];
    var u := s.(remote := s.remote[1..], line := s.line + [m]);
    RepliedConcat(s.line, [m]);
    One(m);
    FirstRemote(s);
    hide Requested, Replied;
    if m.Reply? {
      assert Outstanding(s)[0] == m.name;
      assert Outstanding(s) == [m.name] + Outstanding(u);
    } else {
      assert Outstanding(u) == Outstanding(s) == Outstanding(u.(own := true));
      assert Replied(u.line) == Replied(s.line);
    }
  }

  lemma TakeUpSerial(s: State)
    requires Serial(s) && s.peer != []
    ensures Serial(TakeUp(s))
  {
    TakeUpOutstanding(s);
    hide Outstanding, Requested, Replied;
  }

  lemma TakeUpOutstanding(s: State)
    requires s.peer != []
    ensures Outstanding(TakeUp(s)) == Outstanding(s)
  {
    var m, t := s.peer[0], TakeUp(s);
    assert [] + Requested(t.peer) == Requested(t.peer) && s.busy + [] == s.busy;
    assert Requested(s.peer) == (if m.Request? then [m.name] else []) + Requested(t.peer);
    hide Requested, Replied;
    Regroup(Replied(s.remote), s.busy, if m.Request? then [m.name] else [], Requested(t.peer));
  }

  lemma Regroup<T>(a: seq<T>, b: seq<T>, c: seq<T>, d: seq<T>)
    ensures a + b + (c + d) == a + (b + c) + d == a + b + c + d
  {
  }

  /** The one request the handler is working on is the one whose reply the client gets next. */
  lemma AnswerSerial(s: State, i: nat, ok: bool)
    requires Serial(s) && i < |s.busy|
    ensures i == 0 && Replied(s.remote) == [] && Outstanding(s) == [s.busy[0]]
    ensures Serial(Answer(s, i, ok))
  {
    var t := Answer(s, i, ok);
    RepliedConcat(s.remote, [Reply(s.busy[i], ok)]);
    One(Reply(s.busy[i], ok));
    assert |s.busy| == 1 && t.busy == [];
    assert Outstanding(t) == Outstanding(s);
  }

  lemma EmitSerial(s: State, m: Msg)
    requires Serial(s) && !m.Reply?
    ensures Serial(s.(remote := s.remote + [m]))
  {
    RepliedConcat(s.remote, [m]);
    One(m);
  }

  // ---- runs ----

  /** `Answered(i, ok)` is a handler answering the request it has; the handler otherwise only emits informs and
    * requests. */
  datatype Step = Received(m: Msg) | Woken | TakenUp | Answered(i: nat, ok: bool) | Emitted(m: Msg) | PeerClosed

  predicate Legal(s: State, st: Step) {
    match st
    case Received(_) => !s.crashing
    case Woken => s.remote != []
    case TakenUp => s.peer != []
    case Answered(i, _) => i < |s.busy|
    case Emitted(m) => !m.Reply?
    case PeerClosed => true
  }

  function Apply(s: State, st: Step): State
    requires Legal(s, st)
  {
    match st
    case Received(m) => Receive(s, m)
    case Woken => WakeRemote(s)
    case TakenUp => TakeUp(s)
    case Answered(i, ok) => Answer(s, i, ok)
    case Emitted(m) => s.(remote := s.remote + [m])
    case PeerClosed => s.(open := false)
  }

  predicate Leads(s: State, run: seq<Step>, t: State)
    decreases |run|
  {
    if run == [] then s == t else Legal(s, run[0]) && Leads(Apply(s, run[0]), run[1..], t)
  }

  lemma StepSerial(s: State, st: Step)
    requires Legal(s, st) && (s.crashing || Serial(s))
    ensures Apply(s, st).crashing || Serial(Apply(s, st))
  {
    if !s.crashing {
      match st
      case Received(m) => ReceiveSerial(s, m);
      case Woken => WakeRemoteSerial(s);
      case TakenUp => TakeUpSerial(s);
      case Answered(i, ok) => AnswerSerial(s, i, ok);
      case Emitted(m) => EmitSerial(s, m);
      case PeerClosed => assert Outstanding(s.(open := false)) == Outstanding(s);
    }
  }

  lemma {:induction false} RunSerial(s: State, run: seq<Step>, t: State)
    requires Leads(s, run, t) && (s.crashing || Serial(s))
    ensures t.crashing || Serial(t)
    decreases |run|
  {
    if run != [] {
      StepSerial(s, run[0]);
      RunSerial(Apply(s, run[0]), run[1..], t);
    }
  }

  /** Over every run that does not crash the connection: the replies on the line answer, once each and in the order of
    * arrival, a prefix of the requests received; at most one request is with the handler, and none is deferred unless
    * one is; and once the handler has nothing left to do, every request has been answered. */
  lemma RepliesInOrder(group: Option<nat>, run: seq<Step>, t: State)
    requires Leads(Start(group), run, t) && !t.crashing
    ensures t.received == Replied(t.line) + Outstanding(t) + Requested(t.defer)
    ensures Replied(t.line) <= t.received
    ensures |t.busy| + |Requested(t.peer)| + |Replied(t.remote)| <= 1
    ensures !t.outside ==> Outstanding(t) == [] && t.defer == []
    ensures t.peer == [] && t.busy == [] && t.remote == [] ==>
      Replied(t.line) == t.received && t.defer == [] && !t.outside
  {
    assert Serial(Start(group));
    RunSerial(Start(group), run, t);
  }

  /** The consistency check before a reply is written never fires: a reply only comes while a request is outstanding. */
  lemma ReplyExpected(group: Option<nat>, run: seq<Step>, t: State)
    requires Leads(Start(group), run, t) && !t.crashing && t.remote != [] && t.remote[0].Reply?
    ensures t.outside && Outstanding(t) == [t.remote[0].name]
  {
    RepliesInOrder(group, run, t);
    assert Serial(Start(group));
    RunSerial(Start(group), run, t);
    assert Outstanding(t)[0] == t.remote[0].name;
  }

  // ---- what passes through, whatever its kind ----

  /** What the handler emits in a step, and what it takes up. */
  function Emission(s: State, st: Step): seq<Msg>
    requires Legal(s, st)
  {
    match st
    case Emitted(m) => [m]
    case Answered(i, ok) => [Reply(s.busy[i], ok)]
    case _ => []
  }

  function Uptake(s: State, st: Step): seq<Msg>
    requires Legal(s, st)
  {
    if st.TakenUp? then [s.peer[0]] else []
  }

  /** The same over a run. */
  function Output(s: State, run: seq<Step>): seq<Msg>
    decreases |run|
  {
    if run == [] || !Legal(s, run[0]) then [] else Emission(s, run[0]) + Output(Apply(s, run[0]), run[1..])
  }

  function Taken(s: State, run: seq<Step>): seq<Msg>
    decreases |run|
  {
    if run == [] || !Legal(s, run[0]) then [] else Uptake(s, run[0]) + Taken(Apply(s, run[0]), run[1..])
  }

  /** What the client sent over a run, and what the handler emitted of its own accord. */
  function Sent(run: seq<Step>): seq<Msg> {
    if run == [] then [] else (if run[0].Received? then [run[0].m] else []) + Sent(run[1..])
  }

  function Volunteered(run: seq<Step>): seq<Msg> {
    if run == [] then [] else (if run[0].Emitted? then [run[0].m] else []) + Volunteered(run[1..])
  }

  /** The informs and requests among some messages, and the informs and replies. */
  function Unsolicited(q: seq<Msg>): seq<Msg> {
    if q == [] then [] else (if q[0].Reply? then [] else [q[0]]) + Unsolicited(q[1..])
  }

  function Unasked(q: seq<Msg>): seq<Msg> {
    if q == [] then [] else (if q[0].Request? then [] else [q[0]]) + Unasked(q[1..])
  }

  /** The line is what has been handed on, in order, with nothing but failing replies in between. */
  predicate Woven(line: seq<Msg>, handed: seq<Msg>) {
    if line == [] then handed == []
    else
      var m, rest := line[|line| - 1], line[..|line| - 1];
      (handed != [] && handed[|handed| - 1] == m && Woven(rest, handed[..|handed| - 1]))
      || (m.Reply? && !m.ok && Woven(rest, handed))
  }

  lemma WovenOn(line: seq<Msg>, handed: seq<Msg>, m: Msg)
    requires Woven(line, handed)
    ensures Woven(line + [m], handed + [m])
    ensures m.Reply? && !m.ok ==> Woven(line + [m], handed)
  {
    assert (line + [m])[..|line|] == line && (handed + [m])[..|handed|] == handed;
  }

  lemma {:induction false} WovenCancelled(line: seq<Msg>, handed: seq<Msg>, q: seq<Msg>)
    requires Woven(line, handed)
    ensures Woven(line + TurnedAll(q), handed)
    decreases |q|
  {
    hide Woven;
    if q == [] {
      assert line + [] == line;
    } else {
      var first := Turned(q[0]);
      WovenOn(line, handed, first);
      WovenCancelled(line + [first], handed, q[1..]);
      Regroup(line, [], [first], TurnedAll(q[1..]));
      assert line + [] == line;
    }
  }

  lemma WakeConveyed(s: State, handed: seq<Msg>)
    requires s.remote != [] && !WakeRemote(s).crashing && Woven(s.line, handed)
    ensures Woven(WakeRemote(s).line, handed + [s.remote[0]]) && WakeRemote(s).remote == s.remote[1..]
  {
    hide Woven, TurnedAll;
    WovenOn(s.line, handed, s.remote[0]);
    WovenCancelled(s.line + [s.remote[0]], handed + [s.remote[0]], s.defer);
  }

  lemma StepConveyed(s: State, st: Step, handed: seq<Msg>) returns (more: seq<Msg>)
    requires Legal(s, st) && Woven(s.line, handed) && !Apply(s, st).crashing
    ensures Woven(Apply(s, st).line, more)
    ensures more + Apply(s, st).remote == handed + s.remote + Emission(s, st)
  {
    hide Woven, WakeRemote;
    more := if st.Woken? then handed + [s.remote[0]] else handed;
    if st.Woken? {
      WakeConveyed(s, handed);
      assert handed + s.remote == handed + [s.remote[0]] + s.remote[1..];
      assert handed + s.remote + [] == handed + s.remote;
    } else {
      assert handed + (s.remote + Emission(s, st)) == handed + s.remote + Emission(s, st);
      assert s.remote + [] == s.remote;
    }
  }

  lemma StepCrashing(s: State, st: Step)
    requires Legal(s, st) && s.crashing
    ensures Apply(s, st).crashing
  {
  }

  lemma {:induction false} StillCrashing(s: State, run: seq<Step>, t: State)
    requires Leads(s, run, t) && s.crashing
    ensures t.crashing
    decreases |run|
  {
    if run != [] {
      StepCrashing(s, run[0]);
      StillCrashing(Apply(s, run[0]), run[1..], t);
    }
  }

  lemma {:induction false} RunConveyed(s: State, run: seq<Step>, t: State, handed: seq<Msg>)
    requires Leads(s, run, t) && !t.crashing && Woven(s.line, handed)
    ensures var all := handed + s.remote + Output(s, run);
      var n := |all| - |t.remote|;
      n >= 0 && all[n..] == t.remote && Woven(t.line, all[..n])
    decreases |run|
  {
    var all := handed + s.remote + Output(s, run);
    if run == [] {
      assert all == handed + s.remote;
      assert all[..|handed|] == handed;
    } else {
      var u := Apply(s, run[0]);
      if u.crashing {
        StillCrashing(u, run[1..], t);
      }
      var more := StepConveyed(s, run[0], handed);
      RunConveyed(u, run[1..], t, more);
      assert all == more + u.remote + Output(u, run[1..]);
    }
  }

  /** Over every run without a crash: whatever the handler emits, requests, informs and replies with their results, is
    * on the line in that order, or waits in it; on the line there are otherwise only the failures of requests
    * cancelled. */
  lemma Conveyed(group: Option<nat>, run: seq<Step>, t: State)
    requires Leads(Start(group), run, t) && !t.crashing
    ensures var all := Output(Start(group), run);
      var n := |all| - |t.remote|;
      n >= 0 && all[n..] == t.remote && Woven(t.line, all[..n])
  {
    RunConveyed(Start(group), run, t, []);
    var all := Output(Start(group), run);
    assert [] + [] + all == all;
  }

  lemma {:induction false} UnsolicitedConcat(a: seq<Msg>, b: seq<Msg>)
    ensures Unsolicited(a + b) == Unsolicited(a) + Unsolicited(b)
  {
    if a == [] {
      assert a + b == b;
    } else {
      UnsolicitedConcat(a[1..], b);
      assert (a + b)[1..] == a[1..] + b && (a + b)[0] == a[0];
    }
  }

  lemma {:induction false} UnaskedConcat(a: seq<Msg>, b: seq<Msg>)
    ensures Unasked(a + b) == Unasked(a) + Unasked(b)
  {
    if a == [] {
      assert a + b == b;
    } else {
      UnaskedConcat(a[1..], b);
      assert (a + b)[1..] == a[1..] + b && (a + b)[0] == a[0];
    }
  }

  lemma {:induction false} TurnedSolicited(q: seq<Msg>)
    ensures Unsolicited(TurnedAll(q)) == []
  {
    if q != [] {
      TurnedSolicited(q[1..]);
    }
  }

  lemma OneKind(m: Msg)
    ensures Unsolicited([m]) == (if m.Reply? then [] else [m]) && Unasked([m]) == (if m.Request? then [] else [m])
  {
    assert [m][1..] == [];
  }

  /** The informs and requests that are on the line or on their way to it. */
  function Outgoing(s: State): seq<Msg> {
    Unsolicited(s.line) + Unsolicited(s.remote)
  }

  lemma FirstKind(q: seq<Msg>)
    requires q != []
    ensures Unsolicited(q) == Unsolicited([q[0]]) + Unsolicited(q[1..])
      && Unasked(q) == Unasked([q[0]]) + Unasked(q[1..])
  {
    OneKind(q[0]);
  }

  lemma WakeLine(s: State)
    requires s.remote != [] && !s.crashing
    ensures WakeRemote(s).remote == s.remote[1..]
    ensures Unsolicited(WakeRemote(s).line) == Unsolicited(s.line) + Unsolicited([s.remote[0]])
  {
    hide Unsolicited, TurnedAll;
    var line := s.line + [s.remote[0]];
    UnsolicitedConcat(s.line, [s.remote[0]]);
    UnsolicitedConcat(line, TurnedAll(s.defer));
    TurnedSolicited(s.defer);
    assert Unsolicited(line) + [] == Unsolicited(line);
  }

  lemma WakeOutgoing(s: State)
    requires s.remote != [] && !s.crashing
    ensures Outgoing(WakeRemote(s)) == Outgoing(s)
  {
    hide Unsolicited, WakeRemote;
    WakeLine(s);
    FirstKind(s.remote);
    Regroup(Unsolicited(s.line), [], Unsolicited([s.remote[0]]), Unsolicited(s.remote[1..]));
    assert Unsolicited(s.line) + [] == Unsolicited(s.line);
  }

  lemma StepOutgoing(s: State, st: Step)
    requires Legal(s, st) && !s.crashing
    ensures Outgoing(Apply(s, st)) == Outgoing(s) + if st.Emitted? then [st.m] else []
  {
    match st
    case Woken => WakeOutgoing(s);
    case Emitted(m) => UnsolicitedConcat(s.remote, [m]); OneKind(m);
    case Answered(i, ok) => UnsolicitedConcat(s.remote, [Reply(s.busy[i], ok)]); OneKind(Reply(s.busy[i], ok));
    case _ =>
  }

  lemma {:induction false} RunOutgoing(s: State, run: seq<Step>, t: State)
    requires Leads(s, run, t) && !t.crashing
    ensures Outgoing(t) == Outgoing(s) + Volunteered(run)
    decreases |run|
  {
    if run != [] {
      if s.crashing {
        StillCrashing(s, run, t);
      }
      StepOutgoing(s, run[0]);
      RunOutgoing(Apply(s, run[0]), run[1..], t);
    }
  }

  /** In particular no inform and no request of the handler is lost, repeated or put out of order. */
  lemma VolunteeredConveyed(group: Option<nat>, run: seq<Step>, t: State)
    requires Leads(Start(group), run, t) && !t.crashing
    ensures Unsolicited(t.line) + Unsolicited(t.remote) == Volunteered(run)
  {
    RunOutgoing(Start(group), run, t);
  }

  /** The other way: the informs and replies of the client that the handler has taken up, or is still to. */
  function Incoming(taken: seq<Msg>, peer: seq<Msg>): seq<Msg> {
    Unasked(taken) + Unasked(peer)
  }

  lemma TakeIncoming(taken: seq<Msg>, peer: seq<Msg>)
    requires peer != []
    ensures Incoming(taken + [peer[0]], peer[1..]) == Incoming(taken, peer)
  {
    hide Unasked;
    UnaskedConcat(taken, [peer[0]]);
    FirstKind(peer);
    Regroup(Unasked(taken), [], Unasked([peer[0]]), Unasked(peer[1..]));
    assert Unasked(taken) + [] == Unasked(taken);
  }

  lemma ToPeerIncoming(taken: seq<Msg>, peer: seq<Msg>, m: Msg)
    ensures Incoming(taken, peer + [m]) == Incoming(taken, peer) + if m.Request? then [] else [m]
  {
    hide Unasked;
    UnaskedConcat(peer, [m]);
    OneKind(m);
  }

  lemma StepIncoming(s: State, st: Step, taken: seq<Msg>)
    requires Legal(s, st) && !Apply(s, st).crashing && AllRequests(s.defer)
    ensures Incoming(taken + Uptake(s, st), Apply(s, st).peer)
      == Incoming(taken, s.peer) + if st.Received? && !st.m.Request? then [st.m] else []
    ensures Apply(s, st).received == s.received + if st.Received? && st.m.Request? then [st.m.name] else []
  {
    hide Incoming;
    assert taken + [] == taken && Incoming(taken, s.peer) + [] == Incoming(taken, s.peer);
    match st
    case Received(m) => ToPeerIncoming(taken, s.peer, m);
    case TakenUp => TakeIncoming(taken, s.peer);
    case Woken =>
      if s.defer != [] {
        ToPeerIncoming(taken, s.peer, s.defer[0]);
        assert s.defer[0] in s.defer;
      }
    case _ =>
  }

  lemma {:induction false} RunIncoming(s: State, run: seq<Step>, t: State, taken: seq<Msg>)
    requires Leads(s, run, t) && !t.crashing && (s.crashing || Serial(s))
    ensures Incoming(taken + Taken(s, run), t.peer) == Incoming(taken, s.peer) + Unasked(Sent(run))
    ensures t.received == s.received + Requested(Sent(run))
    decreases |run|
  {
    if run == [] {
      assert taken + [] == taken;
    } else {
      var u := Apply(s, run[0]);
      if s.crashing {
        StillCrashing(s, run, t);
      }
      if u.crashing {
        StillCrashing(u, run[1..], t);
      }
      StepSerial(s, run[0]);
      StepIncoming(s, run[0], taken);
      RunIncoming(u, run[1..], t, taken + Uptake(s, run[0]));
      TakenFirst(s, run, taken);
      SentFirst(run);
      hide *;
      Regroup(Incoming(taken, s.peer), [], if run[0].Received? && !run[0].m.Request? then [run[0].m] else [],
              Unasked(Sent(run[1..])));
      Regroup(s.received, [], if run[0].Received? && run[0].m.Request? then [run[0].m.name] else [],
              Requested(Sent(run[1..])));
      assert Incoming(taken, s.peer) + [] == Incoming(taken, s.peer) && s.received + [] == s.received;
    }
  }

  lemma TakenFirst(s: State, run: seq<Step>, taken: seq<Msg>)
    requires run != [] && Legal(s, run[0])
    ensures taken + Taken(s, run) == taken + Uptake(s, run[0]) + Taken(Apply(s, run[0]), run[1..])
  {
  }

  lemma SentFirst(run: seq<Step>)
    requires run != []
    ensures Unasked(Sent(run))
      == (if run[0].Received? && !run[0].m.Request? then [run[0].m] else []) + Unasked(Sent(run[1..]))
    ensures Requested(Sent(run))
      == (if run[0].Received? && run[0].m.Request? then [run[0].m.name] else []) + Requested(Sent(run[1..]))
  {
    if run[0].Received? {
      FirstKind(Sent(run));
      OneKind(run[0].m);
      assert Sent(run)[1..] == Sent(run[1..]);
    } else {
      assert Sent(run) == Sent(run[1..]);
    }
  }

  /** Over every run without a crash: the informs and replies that the client sent are those that the handler has taken
    * up, followed by those at its endpoint, and the requests received are those that it sent. */
  lemma SentTakenUp(group: Option<nat>, run: seq<Step>, t: State)
    requires Leads(Start(group), run, t) && !t.crashing
    ensures Unasked(Taken(Start(group), run)) + Unasked(t.peer) == Unasked(Sent(run))
    ensures t.received == Requested(Sent(run))
  {
    assert Serial(Start(group));
    RunIncoming(Start(group), run, t, []);
    assert [] + Taken(Start(group), run) == Taken(Start(group), run);
  }

  /** A step crashes the connection exactly if it has a message for a handler that has closed its endpoint. */
  lemma CrashExact(s: State, st: Step)
    requires Legal(s, st) && !s.crashing
    ensures Apply(s, st).crashing <==>
      !s.open && ((st.Received? && !(st.m.Request? && s.outside))
                  || (st.Woken? && s.remote[0].Reply? && 0 < |s.defer| <= s.Limit()))
  {
  }

  /** The flag for a request of its own is set by writing one and cleared by a reply of the client. */
  lemma OwnFlag(s: State, st: Step)
    requires Legal(s, st)
    ensures Apply(s, st).own <==>
      if st.Woken? && !s.crashing && s.remote[0].Request? then true
      else if st.Received? && st.m.Reply? then false
      else s.own
  {
  }

  /** So no run crashes before the handler has closed its endpoint. */
  lemma {:induction false} CrashNeedsClose(s: State, run: seq<Step>, t: State)
    requires Leads(s, run, t) && s.open && !s.crashing && PeerClosed !in run
    ensures t.open && !t.crashing
    decreases |run|
  {
    if run != [] {
      assert run[0] in run;
      CrashExact(s, run[0]);
      CrashNeedsClose(Apply(s, run[0]), run[1..], t);
    }
  }

  /** What a reply on its way to the client sets off: over the limit every deferred request fails, one after the other
    * in their order; otherwise the first of them goes to the handler, and without one the next request may. */
  lemma ReplyWritten(s: State)
    requires s.remote != [] && s.remote[0].Reply? && !s.crashing && s.open
    ensures var t, n, limit := WakeRemote(s), |s.line| + 1, if s.group.Some? then s.group.value else 8;
      && |t.line| >= n && t.line[..n] == s.line + [s.remote[0]] && t.remote == s.remote[1..]
      && if |s.defer| > limit then
           && |t.line| == n + |s.defer| && t.defer == [] && !t.outside && t.peer == s.peer
           && (forall i :: 0 <= i < |s.defer| ==> t.line[n + i] == Reply(s.defer[i].name, false))
         else
           && |t.line| == n && t.peer == s.peer + (if s.defer == [] then [] else [s.defer[0]])
           && t.defer == (if s.defer == [] then [] else s.defer[1..]) && (t.outside <==> s.outside && s.defer != [])
  {
    TurnedAt(s.defer);
    hide TurnedAll;
    assert (s.line + [s.remote[0]] + TurnedAll(s.defer))[..|s.line| + 1] == s.line + [s.remote[0]];
    assert (s.line + [s.remote[0]])[..|s.line| + 1] == s.line + [s.remote[0]];
  }

  lemma {:induction false} TurnedAt(q: seq<Msg>)
    ensures |TurnedAll(q)| == |q| && forall i :: 0 <= i < |q| ==> TurnedAll(q)[i] == Reply(q[i].name, false)
  {
    if q != [] {
      TurnedAt(q[1..]);
    }
  }

  /** The longest the queue of deferred requests has been. */
  function Longest(s: State, run: seq<Step>): nat
    decreases |run|
  {
    if run == [] || !Legal(s, run[0]) then |s.defer| else Max(|s.defer|, Longest(Apply(s, run[0]), run[1..]))
  }

  /** f_max_defer is that length. */
  lemma {:induction false} RecordKept(s: State, run: seq<Step>, t: State)
    requires Leads(s, run, t) && |s.defer| <= s.maxDefer
    ensures t.maxDefer == Max(s.maxDefer, Longest(s, run))
    decreases |run|
  {
    if run != [] {
      RecordStep(s, run[0]);
      RecordKept(Apply(s, run[0]), run[1..], t);
    }
  }

  lemma RecordStep(s: State, st: Step)
    requires Legal(s, st) && |s.defer| <= s.maxDefer
    ensures Apply(s, st).maxDefer == Max(s.maxDefer, |Apply(s, st).defer|)
  {
  }

  /** After a reply fewer requests are deferred than the limit allows: over it, all of them were cancelled. */
  lemma DeferBounded(s: State)
    requires s.remote != [] && s.remote[0].Reply? && !s.crashing
    ensures var t := WakeRemote(s); |t.defer| < Max(1, s.Limit())
    ensures |s.defer| > s.Limit() <==> |WakeRemote(s).line| > |s.line| + 1
  {
    TurnedAt(s.defer);
  }

  /** katcp_flat, as far as it takes part. */
  class Flat {
    var outside: bool
    var own: bool
    var crashing: bool
    var open: bool
    var group: Option<nat>
    var maxDefer: nat
    var defer: seq<Msg>
    var peer: seq<Msg>
    var remote: seq<Msg>
    var line: seq<Msg>
    ghost var busy: seq<string>
    ghost var received: seq<string>

    constructor (group: Option<nat>)
      ensures View() == Start(group)
    {
      outside, own, crashing, open, this.group, maxDefer := false, false, false, true, group, 0;
      defer, peer, remote, line, busy, received := [], [], [], [], [], [];
    }

    ghost function View(): State
      reads this
    {
      State(outside, own, crashing, open, group, maxDefer, defer, peer, busy, remote, line, received)
    }

    /** send_message_endpoint_katcp from the remote to the peer endpoint; it fails when the peer no longer receives. */
    method SendPeer(m: Msg) returns (result: int)
      modifies this`peer
      ensures if open then result == 0 && peer == old(peer) + [m] else result == -1 && peer == old(peer)
    {
      if !open {
        return -1;
      }
      peer := peer + [m];
      return 0;
    }

    method ReceiveOne(px: Msg)
      requires !crashing
      modifies this
      ensures View() == Receive(old(View()), px)
    {
      if px.Reply? {
        own := false;
      }
      var deferred := false;
      if px.Request? {
        received := received + [px.name];
        if outside {
          defer := defer + [px];
          deferred := true;
          if |defer| > maxDefer {
            maxDefer := |defer|;
          }
        }
        outside := true;
      }
      if !deferred {
        var result := SendPeer(px);
        if result < 0 {
          crashing := true;
        }
      }
    }

    /** The loop over the messages that a read has completed; a message the peer does not take ends it. */
    method ReceiveAll(incoming: seq<Msg>) returns (taken: nat)
      requires !crashing
      modifies this
      ensures taken <= |incoming| && (taken < |incoming| ==> crashing)
      ensures Leads(old(View()), seq(taken, i requires 0 <= i < |incoming| => Received(incoming[i])), View())
    {
      taken := 0;
      while taken < |incoming| && !crashing
        invariant taken <= |incoming|
        invariant Leads(old(View()), seq(taken, i requires 0 <= i < |incoming| => Received(incoming[i])), View())
      {
        LeadsOnce(old(View()), seq(taken, i requires 0 <= i < |incoming| => Received(incoming[i])), View(),
          Received(incoming[taken]));
        ReceiveOne(incoming[taken]);
        taken := taken + 1;
        assert seq(taken, i requires 0 <= i < |incoming| => Received(incoming[i]))
          == seq(taken - 1, i requires 0 <= i < |incoming| => Received(incoming[i])) + [Received(incoming[taken - 1])];
      }
    }

    /** The mass cancel: every deferred request is turned around onto the line. */
    method CancelAll()
      modifies this`defer, this`line
      ensures defer == [] && line == old(line) + TurnedAll(old(defer))
    {
      while defer != []
        invariant line + TurnedAll(defer) == old(line) + TurnedAll(old(defer))
        decreases |defer|
      {
        var pt := defer[0];
        defer := defer[1..];
        line := line + [Turned(pt)];
      }
    }

    method Wake()
      requires remote != []
      modifies this
      ensures View() == WakeRemote(old(View()))
    {
      var px := remote[0];
      remote := remote[1..];
      if crashing {
        return;
      }
      line := line + [px];
      if px.Request? {
        own := true;
      }
      if px.Reply? {
        NextRequest();
      }
    }

    /** After a reply: the next of the deferred requests is passed on, or all are cancelled if there are too many. */
    method NextRequest()
      modifies this
      ensures View() == AfterReply(old(View()))
    {
      var size := |defer|;
      if size > 0 {
        var limit := if group.Some? then group.value else FLUSH_DEFER;
        if size > limit {
          CancelAll();
          outside := false;
        } else {
          var pt := defer[0];
          defer := defer[1..];
          var result := SendPeer(pt);
          if result < 0 {
            crashing := true;
          }
        }
      } else {
        outside := false;
      }
    }
  }

  lemma {:induction false} LeadsOnce(s: State, run: seq<Step>, t: State, st: Step)
    requires Leads(s, run, t) && Legal(t, st)
    ensures Leads(s, run + [st], Apply(t, st))
    decreases |run|
  {
    if run == [] {
      assert [] + [st] == [st] && [st][1..] == [];
      assert Leads(Apply(t, st), [], Apply(t, st));
    } else {
      LeadsOnce(Apply(s, run[0]), run[1..], t, st);
      assert (run + [st])[1..] == run[1..] + [st];
    }
  }
}
