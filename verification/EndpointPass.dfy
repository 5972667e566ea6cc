/** One pass over the endpoints, run_endpoints_katcp, as a function of the state and of what the wake callbacks do. */
module EndpointPass {
  import opened EndpointState
  import opened EndpointSteps
  import opened EndpointCalls
  import opened EndpointRuns

  /** One call of a wake callback: the calls it makes on the layer and the verdict it returns. */
  datatype Turn = Turn(acts: seq<Step>, verdict: Verdict)

  /** A callback sends, references, forgets, closes and releases, but neither releases its own endpoint nor creates
    * any. */
  predicate Permitted(self: Endpoint, st: Step) {
    !st.Created? && !st.Woken? && !st.Collected? && st != Released(self)
  }

  ghost function Act(s: State, self: Endpoint, st: Step): State
    requires Sound(s, [])
  {
    if Permitted(self, st) && Legal(s, st) then Apply(s, st) else s
  }

  lemma ActSent(s: State, self: Endpoint, m: Mail)
    requires Sound(s, [])
    ensures Act(s, self, Sent(m)) == if Sendable(s, m) then Send(s, m) else s
  {
  }

  /** The steps that only touch the endpoint they name, or its references. */
  lemma ActNear(s: State, self: Endpoint, st: Step)
    requires Sound(s, []) && (st.Held? || st.Dropped? || st.ClosedReceiving? || st.ClosedSending?)
    ensures Legal(s, st) <==> st.e in (if st.Dropped? then (set e | e in s.holders) else s.eps.Keys)
    ensures Act(s, self, st) == if Legal(s, st) then Apply(s, st) else s
  {
  }

  lemma ActReleased(s: State, self: Endpoint, e: Endpoint)
    requires Sound(s, [])
    ensures Act(s, self, Released(e)) == if e in s.eps && e != self then ReleaseStep(s, e) else s
  {
    hide Sound, ReleaseStep, EndpointCalls.Send, EndpointCalls.Create, EndpointCalls.Collect;
  }

  ghost function Acts(s: State, self: Endpoint, acts: seq<Step>): State
    requires Sound(s, [])
    decreases |acts|
  {
    if acts == [] then s
    else
      ActSound(s, self, acts[0]);
      Acts(Act(s, self, acts[0]), self, acts[1..])
  }

  lemma ActSound(s: State, self: Endpoint, st: Step)
    requires Sound(s, [])
    ensures Sound(Act(s, self, st), [])
  {
    if Permitted(self, st) && Legal(s, st) {
      StepSound(s, st);
    }
  }

  /** What a callback does leaves its endpoint, and every message it had, in place. */
  ghost predicate Served(s: State, t: State, self: Endpoint) {
    && t.eps.Keys == s.eps.Keys && t.order == s.order && self in s.eps
    && t.eps[self].up == s.eps[self].up && t.eps[self].wake == s.eps[self].wake && t.eps[self].fast == s.eps[self].fast
    && s.eps[self].queue <= t.eps[self].queue
  }

  lemma ReleasedServed(s: State, self: Endpoint, x: Endpoint)
    requires Sound(s, []) && self in s.eps && x in s.eps && x != self
    ensures Served(s, ReleaseStep(s, x), self)
  {
    PlacedLoose(s, x);
    ReleaseFlags(s, x, self);
    if s.eps[x].up {
      ReleaseExact(s, x, self);
    }
  }

  lemma ActServed(s: State, self: Endpoint, st: Step)
    requires Sound(s, []) && self in s.eps
    ensures Served(s, Act(s, self, st), self)
  {
    hide Sound, EndpointCalls.Send, ReleaseStep, WakeStep, Collect;
    if Permitted(self, st) && Legal(s, st) {
      match st
      case Sent(m) => SendFlags(s, m, self);
      case Released(x) => ReleasedServed(s, self, x);
      case _ => NearServed(s, self, st);
    }
  }

  lemma NearServed(s: State, self: Endpoint, st: Step)
    requires Sound(s, []) && self in s.eps && Legal(s, st)
    requires st.Held? || st.Dropped? || st.ClosedReceiving? || st.ClosedSending?
    ensures Served(s, Apply(s, st), self)
  {
    hide Sound, EndpointCalls.Send, EndpointCalls.Create, ReleaseStep, WakeStep, Collect;
  }

  lemma {:induction false} ActsServed(s: State, self: Endpoint, acts: seq<Step>)
    requires Sound(s, []) && self in s.eps
    ensures Sound(Acts(s, self, acts), []) && Served(s, Acts(s, self, acts), self)
    decreases |acts|
  {
    if acts != [] {
      ActSound(s, self, acts[0]);
      ActServed(s, self, acts[0]);
      ActsServed(Act(s, self, acts[0]), self, acts[1..]);
    }
  }

  predicate Stops(v: Verdict) {
    v.Pause? || v.Yield?
  }

  /** The first message of e, which still is the first after the callback, is dealt with by the verdict. */
  ghost function ServeOne(s: State, e: Endpoint, turn: Turn): (t: State)
    requires Sound(s, []) && e in s.eps && s.eps[e].queue != []
    ensures Sound(t, []) && t.eps.Keys == s.eps.Keys && t.order == s.order
  {
    ActsServed(s, e, turn.acts);
    var u := Acts(s, e, turn.acts);
    PlacedLoose(u, e);
    DeliverSound(u, e, turn.verdict);
    DeliverFlags(u, e, turn.verdict, e);
    Deliver(u, e, turn.verdict)
  }

  /** The callback of e consumes the next turn of the script; an endpoint without one fails its messages, and a script
    * that has run out yields. */
  ghost function NextTurn(s: State, e: Endpoint, script: seq<Turn>): Turn
    requires e in s.eps
  {
    if !s.eps[e].wake then Turn([], Fail) else if script == [] then Turn([], Yield) else script[0]
  }

  function RestTurns(wake: bool, script: seq<Turn>): seq<Turn> {
    if !wake || script == [] then script else script[1..]
  }

  /** The inner loop: one message, or in fast mode all messages until the queue is empty or the callback stops. */
  ghost function Serve(s: State, e: Endpoint, script: seq<Turn>): (r: (State, seq<Turn>))
    requires Sound(s, []) && e in s.eps
    ensures Sound(r.0, []) && r.0.eps.Keys == s.eps.Keys && r.0.order == s.order
    decreases |script|, |s.eps[e].queue|
  {
    if s.eps[e].queue == [] then (s, script)
    else
      var turn, rest := NextTurn(s, e, script), RestTurns(s.eps[e].wake, script);
      var t := ServeOne(s, e, turn);
      UnattendedShrinks(s, e, turn);
      if s.eps[e].fast && !Stops(turn.verdict) then Serve(t, e, rest) else (t, rest)
  }

  lemma UnattendedShrinks(s: State, e: Endpoint, turn: Turn)
    requires Sound(s, []) && e in s.eps && s.eps[e].queue != []
    ensures !s.eps[e].wake && turn == Turn([], Fail) ==> |ServeOne(s, e, turn).eps[e].queue| < |s.eps[e].queue|
  {
    if !s.eps[e].wake && turn == Turn([], Fail) {
      PlacedLoose(s, e);
      var m, p := s.eps[e].queue[0], s.(eps := Pop(s.eps, e));
      assert Placed(s.eps, e, m);
      DisposeExact(p, m, Fail, e);
    }
  }

  lemma ServeDone(s: State, e: Endpoint, script: seq<Turn>)
    requires Sound(s, []) && e in s.eps && s.eps[e].queue == []
    ensures Serve(s, e, script) == (s, script)
  {
  }

  /** One round of the inner loop. */
  lemma ServeRound(s: State, e: Endpoint, script: seq<Turn>, turn: Turn, rest: seq<Turn>)
    requires Sound(s, []) && e in s.eps && s.eps[e].queue != []
    requires turn == NextTurn(s, e, script) && rest == RestTurns(s.eps[e].wake, script)
    ensures Serve(s, e, script) ==
      if s.eps[e].fast && !Stops(turn.verdict) then Serve(ServeOne(s, e, turn), e, rest)
      else (ServeOne(s, e, turn), rest)
    ensures |rest| < |script| || Stops(turn.verdict) || |ServeOne(s, e, turn).eps[e].queue| < |s.eps[e].queue|
    ensures |rest| <= |script|
  {
    UnattendedShrinks(s, e, turn);
  }

  ghost function CollectIf(s: State, e: Endpoint): (t: State)
    requires Sound(s, [])
    ensures Sound(t, []) && (forall x :: x in s.eps && x != e ==> x in t.eps)
  {
    if Collectable(s, e) then CollectSound(s, e); Collect(s, e) else s
  }

  /** One endpoint of the pass: served while it is up, collected when it is gone and unreferenced. */
  ghost function Visit(s: State, e: Endpoint, script: seq<Turn>): (r: (State, seq<Turn>))
    requires Sound(s, []) && e in s.eps
    ensures Sound(r.0, []) && (forall x :: x in s.eps && x != e ==> x in r.0.eps)
  {
    var r := if s.eps[e].up then Serve(s, e, script) else (s, script);
    (CollectIf(r.0, e), r.1)
  }

  /** The outer loop over the endpoints that were in the list when the pass began. */
  ghost function Pass(s: State, pending: seq<Endpoint>, script: seq<Turn>): State
    requires Sound(s, []) && NoDup(pending) && (forall e :: e in pending ==> e in s.eps)
    decreases |pending|
  {
    if pending == [] then s
    else
      var r := Visit(s, pending[0], script);
      assert forall e :: e in pending[1..] ==> e in pending && e != pending[0];
      Pass(r.0, pending[1..], r.1)
  }

  lemma PassRound(s: State, pending: seq<Endpoint>, script: seq<Turn>)
    requires Sound(s, []) && NoDup(pending) && (forall e :: e in pending ==> e in s.eps) && pending != []
    ensures var r := Visit(s, pending[0], script);
      (forall e :: e in pending[1..] ==> e in r.0.eps) && NoDup(pending[1..])
      && Pass(s, pending, script) == Pass(r.0, pending[1..], r.1)
  {
    assert forall e :: e in pending[1..] ==> e in pending && e != pending[0];
  }

  lemma PassDone(s: State, script: seq<Turn>)
    requires Sound(s, [])
    ensures Pass(s, [], script) == s
  {
  }

  // ---- a pass is a run ----

  lemma {:induction false} LeadsOn(s: State, a: seq<Step>, t: State, b: seq<Step>, u: State)
    requires Sound(s, []) && Leads(s, a, t) && Sound(t, []) && Leads(t, b, u)
    ensures Leads(s, a + b, u)
    decreases |a|
  {
    hide Sound, Apply, Legal;
    if a == [] {
      assert a + b == b;
    } else {
      StepSound(s, a[0]);
      LeadsOn(Apply(s, a[0]), a[1..], t, b, u);
      assert (a + b)[0] == a[0] && (a + b)[1..] == a[1..] + b;
    }
  }

  lemma LeadsOnce(s: State, st: Step)
    requires Sound(s, []) && Legal(s, st)
    ensures Leads(s, [st], Apply(s, st))
  {
    StepSound(s, st);
    assert [st][1..] == [];
    assert Leads(Apply(s, st), [], Apply(s, st));
  }

  lemma {:induction false} ActsLead(s: State, self: Endpoint, acts: seq<Step>) returns (run: seq<Step>)
    requires Sound(s, []) && self in s.eps
    ensures Sound(Acts(s, self, acts), []) && Leads(s, run, Acts(s, self, acts))
    decreases |acts|
  {
    run := [];
    if acts != [] {
      ActSound(s, self, acts[0]);
      ActServed(s, self, acts[0]);
      var t := Act(s, self, acts[0]);
      var rest := ActsLead(t, self, acts[1..]);
      run := rest;
      if Permitted(self, acts[0]) && Legal(s, acts[0]) {
        LeadsOnce(s, acts[0]);
        run := [acts[0]] + rest;
        LeadsOn(s, [acts[0]], t, rest, Acts(t, self, acts[1..]));
      }
    }
  }

  lemma ServeOneLeads(s: State, e: Endpoint, turn: Turn) returns (run: seq<Step>)
    requires Sound(s, []) && e in s.eps && s.eps[e].queue != [] && s.eps[e].up
      && (s.eps[e].wake || turn.verdict == Fail)
    ensures Leads(s, run, ServeOne(s, e, turn))
  {
    ActsServed(s, e, turn.acts);
    var u := Acts(s, e, turn.acts);
    var acts := ActsLead(s, e, turn.acts);
    var st := Woken(e, turn.verdict);
    assert Legal(u, st);
    LeadsOnce(u, st);
    LeadsOn(s, acts, u, [st], Apply(u, st));
    run := acts + [st];
  }

  lemma {:induction false} ServeLeads(s: State, e: Endpoint, script: seq<Turn>) returns (run: seq<Step>)
    requires Sound(s, []) && e in s.eps && s.eps[e].up
    ensures Leads(s, run, Serve(s, e, script).0)
    decreases |script|, |s.eps[e].queue|
  {
    run := [];
    if s.eps[e].queue != [] {
      var turn, rest := NextTurn(s, e, script), RestTurns(s.eps[e].wake, script);
      var t := ServeOne(s, e, turn);
      run := ServeOneLeads(s, e, turn);
      UnattendedShrinks(s, e, turn);
      if s.eps[e].fast && !Stops(turn.verdict) {
        ServeOneUp(s, e, turn);
        var more := ServeLeads(t, e, rest);
        LeadsOn(s, run, t, more, Serve(t, e, rest).0);
        run := run + more;
      }
    }
  }

  lemma ServeOneUp(s: State, e: Endpoint, turn: Turn)
    requires Sound(s, []) && e in s.eps && s.eps[e].queue != []
    ensures ServeOne(s, e, turn).eps[e].up == s.eps[e].up
  {
    ActsServed(s, e, turn.acts);
    var u := Acts(s, e, turn.acts);
    PlacedLoose(u, e);
    DeliverFlags(u, e, turn.verdict, e);
  }

  lemma VisitLeads(s: State, e: Endpoint, script: seq<Turn>) returns (run: seq<Step>)
    requires Sound(s, []) && e in s.eps
    ensures Leads(s, run, Visit(s, e, script).0)
  {
    run := [];
    var t := s;
    if s.eps[e].up {
      run := ServeLeads(s, e, script);
      t := Serve(s, e, script).0;
    }
    if Collectable(t, e) {
      LeadsOnce(t, Collected(e));
      LeadsOn(s, run, t, [Collected(e)], Collect(t, e));
      run := run + [Collected(e)];
    }
  }

  /** Whatever the callbacks do, a pass consists of legal steps, so all that runs keep is kept by passes. */
  lemma {:induction false} PassLeads(s: State, pending: seq<Endpoint>, script: seq<Turn>) returns (run: seq<Step>)
    requires Sound(s, []) && NoDup(pending) && (forall e :: e in pending ==> e in s.eps)
    ensures Leads(s, run, Pass(s, pending, script))
    decreases |pending|
  {
    run := [];
    if pending != [] {
      var r := Visit(s, pending[0], script);
      run := VisitLeads(s, pending[0], script);
      assert forall e :: e in pending[1..] ==> e in pending && e != pending[0];
      var more := PassLeads(r.0, pending[1..], r.1);
      LeadsOn(s, run, r.0, more, Pass(r.0, pending[1..], r.1));
      run := run + more;
    }
  }

  // ---- a pass with nothing to do ----

  /** The endpoints of a list that are in a set, in the order of the list. */
  function Filtered(order: seq<Endpoint>, kept: set<Endpoint>): seq<Endpoint> {
    if order == [] then [] else (if order[0] in kept then [order[0]] else []) + Filtered(order[1..], kept)
  }

  lemma {:induction false} FilteredAll(order: seq<Endpoint>, kept: set<Endpoint>)
    requires forall e :: e in order ==> e in kept
    ensures Filtered(order, kept) == order
  {
    if order != [] {
      FilteredAll(order[1..], kept);
      assert order == [order[0]] + order[1..];
    }
  }

  lemma {:induction false} FilteredWithout(order: seq<Endpoint>, x: Endpoint, kept: set<Endpoint>)
    requires x !in kept
    ensures Filtered(Without(order, x), kept) == Filtered(order, kept)
  {
    if order != [] {
      FilteredWithout(order[1..], x, kept);
      var rest := Without(order[1..], x);
      if order[0] != x {
        assert ([order[0]] + rest)[1..] == rest;
      }
      assert order[0] == x ==> [] + rest == rest && [] + Filtered(order[1..], kept) == Filtered(order[1..], kept);
    }
  }

  /** What is left of a state when some endpoints have been freed. */
  ghost function Freed(s: State, gone: set<Endpoint>): State {
    s.(eps := s.eps - gone, order := Filtered(s.order, s.eps.Keys - gone))
  }

  ghost function Garbage(s: State, pending: seq<Endpoint>): set<Endpoint> {
    set e | e in pending && e in s.eps && !s.eps[e].up && s.eps[e].refs <= 0
  }

  /** A pass that finds all queues empty frees exactly the gone endpoints without references; the others are as they
    * were and in the same order, and so are the references held and the books. */
  lemma {:induction false} QuietPass(s: State, pending: seq<Endpoint>, script: seq<Turn>)
    requires Sound(s, []) && NoDup(pending) && (forall e :: e in pending ==> e in s.eps)
    requires forall e :: e in s.eps ==> s.eps[e].queue == []
    ensures Pass(s, pending, script) == Freed(s, Garbage(s, pending))
    decreases |pending|
  {
    if pending == [] {
      QuietNone(s, script);
    } else {
      var e, rest := pending[0], pending[1..];
      var t := if Collectable(s, e) then Collect(s, e) else s;
      QuietVisit(s, e, script);
      PassRound(s, pending, script);
      hide Visit, Sound, Pass, Without;
      QuietPass(t, rest, script);
      QuietFreed(s, e, rest, t);
      assert pending == [e] + rest;
    }
  }

  lemma QuietNone(s: State, script: seq<Turn>)
    requires Sound(s, [])
    ensures Pass(s, [], script) == Freed(s, Garbage(s, []))
  {
    FilteredAll(s.order, s.eps.Keys);
    assert Garbage(s, []) == {};
    assert s.eps - {} == s.eps && s.eps.Keys - {} == s.eps.Keys;
  }

  lemma QuietVisit(s: State, e: Endpoint, script: seq<Turn>)
    requires Sound(s, []) && e in s.eps && s.eps[e].queue == []
    ensures Visit(s, e, script) == (if Collectable(s, e) then Collect(s, e) else s, script)
  {
  }

  lemma QuietFreed(s: State, e: Endpoint, rest: seq<Endpoint>, t: State)
    requires e !in rest && t == if Collectable(s, e) then Collect(s, e) else s
    ensures Freed(t, Garbage(t, rest)) == Freed(s, Garbage(s, [e] + rest))
  {
    var more, all := Garbage(t, rest), Garbage(s, [e] + rest);
    assert forall x :: x in [e] + rest <==> x == e || x in rest;
    assert all == if Collectable(s, e) then more + {e} else more;
    assert t.eps - more == s.eps - all && t.eps.Keys - more == s.eps.Keys - all;
    if Collectable(s, e) {
      FilteredWithout(s.order, e, s.eps.Keys - all);
    }
  }

  // ---- what one callback does in a pass ----

  lemma {:induction false} ActsRun(s: State, self: Endpoint, acts: seq<Step>, u: State)
    requires Sound(s, []) && self in s.eps && Leads(s, acts, u) && (forall st :: st in acts ==> Permitted(self, st))
    ensures Acts(s, self, acts) == u
    decreases |acts|
  {
    if acts != [] {
      ActSound(s, self, acts[0]);
      ActServed(s, self, acts[0]);
      assert acts[0] in acts;
      ActsRun(Apply(s, acts[0]), self, acts[1..], u);
    }
  }

  /** An endpoint that is up with mail and a callback: the calls that the callback may make are made, and then its
    * verdict takes effect; that is all, unless a fast endpoint goes on. */
  lemma TurnRuns(s: State, e: Endpoint, turn: Turn, more: seq<Turn>, u: State)
    requires Sound(s, []) && e in s.eps && s.eps[e].up && s.eps[e].wake && s.eps[e].queue != []
    requires s.eps[e].fast ==> turn.verdict.Pause? || turn.verdict.Yield?
    requires Leads(s, turn.acts, u)
    requires forall st :: st in turn.acts ==> !st.Created? && !st.Woken? && !st.Collected? && st != Released(e)
    ensures var (t, rest) := Visit(s, e, [turn] + more);
      rest == more && Leads(s, turn.acts + [Woken(e, turn.verdict)], t)
  {
    var st := Woken(e, turn.verdict);
    ActsRun(s, e, turn.acts, u);
    ActsServed(s, e, turn.acts);
    ServeRound(s, e, [turn] + more, turn, more);
    ServeOneUp(s, e, turn);
    assert Legal(u, st);
    LeadsOnce(u, st);
    LeadsOn(s, turn.acts, u, [st], Apply(u, st));
    hide Sound, Serve, Deliver, Leads, Acts;
    assert ServeOne(s, e, turn) == Apply(u, st);
  }

  // ---- a pass delivers ----

  /** Callbacks that make no calls and deal with every message they see. */
  predicate Calm(script: seq<Turn>) {
    forall turn :: turn in script ==> turn.acts == [] && !turn.verdict.Pause? && !turn.verdict.Yield?
  }

  /** How many messages an endpoint deals with when its turn comes. */
  function Turns(x: Ep): nat {
    if !x.up then 0 else if x.fast || x.queue == [] then |x.queue| else 1
  }

  /** The answer to one message with a verdict, as far as it goes to x. */
  function AnswerTo(m: Mail, v: Verdict, x: Endpoint): seq<Mail> {
    if m.kind.Request? && m.wack && m.from == x && !v.Own? then [Mail(Reply(v), m.name, m.to, x, false)] else []
  }

  /** The answers to a list of messages, the verdicts being those of the callback or failures if there is none. */
  function Answers(ms: seq<Mail>, wake: bool, script: seq<Turn>, x: Endpoint): seq<Mail>
    requires wake ==> |ms| <= |script|
  {
    if ms == [] then []
    else
      AnswerTo(ms[0], if wake then script[0].verdict else Fail, x)
      + Answers(ms[1..], wake, if wake then script[1..] else script, x)
  }

  lemma {:induction false} AnswersReply(ms: seq<Mail>, wake: bool, script: seq<Turn>, x: Endpoint)
    requires wake ==> |ms| <= |script|
    ensures forall m :: m in Answers(ms, wake, script, x) ==> m.kind.Reply? && m.to == x
  {
    if ms != [] {
      AnswersReply(ms[1..], wake, if wake then script[1..] else script, x);
    }
  }

  /** What the first n messages of e come to: they are gone, and what they are owed is answered. */
  ghost predicate Dealt(s: State, e: Endpoint, n: nat, script: seq<Turn>, t: State, rest: seq<Turn>, x: Endpoint)
    requires e in s.eps && x in s.eps
  {
    var a := s.eps[e];
    && t.eps.Keys == s.eps.Keys && t.order == s.order && SameFlags(t.eps[x], s.eps[x])
    && n <= |a.queue| && (a.wake ==> n <= |script|) && rest == (if a.wake then script[n..] else script)
    && t.eps[x].queue ==
         if x == e then a.queue[n..]
         else s.eps[x].queue + if s.eps[x].receiving then Answers(a.queue[..n], a.wake, script, x) else []
  }

  lemma NextCalm(s: State, e: Endpoint, script: seq<Turn>)
    requires e in s.eps && Calm(script) && (s.eps[e].wake ==> script != [])
    ensures var turn, rest := NextTurn(s, e, script), RestTurns(s.eps[e].wake, script);
      && turn == Turn([], if s.eps[e].wake then script[0].verdict else Fail) && !Stops(turn.verdict)
      && Calm(rest) && rest == if s.eps[e].wake then script[1..] else script
  {
    assert s.eps[e].wake ==> script[0] in script;
    assert s.eps[e].wake ==> forall x :: x in script[1..] ==> x in script;
  }

  lemma ServeOneCalm(s: State, e: Endpoint, v: Verdict)
    requires Sound(s, []) && e in s.eps && s.eps[e].queue != []
    ensures Flushable(s.eps, e) && ServeOne(s, e, Turn([], v)) == Deliver(s, e, v)
    ensures Placed(s.eps, e, s.eps[e].queue[0])
  {
    PlacedLoose(s, e);
    assert Placed(s.eps, e, s.eps[e].queue[0]);
    hide Sound, Deliver, Flushable;
    assert Acts(s, e, []) == s;
  }

  lemma CalmOne(s: State, e: Endpoint, script: seq<Turn>, x: Endpoint)
    requires Sound(s, []) && e in s.eps && x in s.eps && s.eps[e].queue != [] && Calm(script)
    requires s.eps[e].wake ==> script != []
    ensures var turn, rest := NextTurn(s, e, script), RestTurns(s.eps[e].wake, script);
      var t := ServeOne(s, e, turn);
      && !Stops(turn.verdict) && Calm(rest) && Dealt(s, e, 1, script, t, rest, x)
      && Listed(t) && Weight(AllMail(t.order, t.eps)) < Weight(AllMail(s.order, s.eps))
  {
    hide Sound, ServeOne, Deliver, Flushable, Calm, Answers, Weight, AllMail, Listed;
    NextCalm(s, e, script);
    var v := NextTurn(s, e, script).verdict;
    ServeOneCalm(s, e, v);
    DeliverExact(s, e, v, x);
    DeliverFlags(s, e, v, x);
    DeliverWeight(s, e, v);
    OneAnswer(s.eps[e].queue[0], s.eps[e].queue, s.eps[e].wake, script, x);
  }

  lemma OneAnswer(m: Mail, q: seq<Mail>, wake: bool, script: seq<Turn>, x: Endpoint)
    requires q != [] && q[0] == m && (wake ==> script != [])
    ensures Answers(q[..1], wake, script, x) == AnswerTo(m, if wake then script[0].verdict else Fail, x)
  {
    assert q[..1][1..] == [];
    var a := AnswerTo(m, if wake then script[0].verdict else Fail, x);
    assert a + [] == a;
  }

  /** One message dealt with, and then n more. */
  lemma DealtMore(s: State, e: Endpoint, n: nat, script: seq<Turn>, u: State, mid: seq<Turn>, t: State, rest: seq<Turn>,
                  x: Endpoint)
    requires e in s.eps && x in s.eps && Dealt(s, e, 1, script, u, mid, e) && Dealt(u, e, n, mid, t, rest, e)
    requires Dealt(s, e, 1, script, u, mid, x) && Dealt(u, e, n, mid, t, rest, x)
    ensures Dealt(s, e, n + 1, script, t, rest, x)
  {
    var q, a := s.eps[e].queue, s.eps[e];
    MoreAnswers(q, n, a.wake, script, x);
    assert q[n + 1..] == q[1..][n..];
    assert a.wake ==> script[1..][n..] == script[n + 1..];
    hide Answers, SameFlags;
    var k := if a.wake then script[1..] else script;
    assert s.eps[x].queue + Answers(q[..1], a.wake, script, x) + Answers(q[1..][..n], a.wake, k, x)
      == s.eps[x].queue + (Answers(q[..1], a.wake, script, x) + Answers(q[1..][..n], a.wake, k, x));
  }

  lemma MoreAnswers(q: seq<Mail>, n: nat, wake: bool, script: seq<Turn>, x: Endpoint)
    requires n < |q| && (wake ==> n < |script|)
    ensures Answers(q[..n + 1], wake, script, x)
      == Answers(q[..1], wake, script, x) + Answers(q[1..][..n], wake, if wake then script[1..] else script, x)
  {
    OneAnswer(q[0], q, wake, script, x);
    assert q[..n + 1][1..] == q[1..][..n] && q[..n + 1][0] == q[0];
  }

  lemma DealtNone(s: State, e: Endpoint, script: seq<Turn>, x: Endpoint)
    requires e in s.eps && x in s.eps
    ensures Dealt(s, e, 0, script, s, script, x)
  {
    assert s.eps[x].queue + [] == s.eps[x].queue;
  }

  lemma DealtKeeps(s: State, e: Endpoint, n: nat, script: seq<Turn>, t: State, rest: seq<Turn>)
    requires e in s.eps && Dealt(s, e, n, script, t, rest, e)
    ensures e in t.eps && t.eps.Keys == s.eps.Keys && SameFlags(t.eps[e], s.eps[e])
    ensures t.eps[e].queue == s.eps[e].queue[n..] && (s.eps[e].wake ==> |rest| == |script| - n)
  {
  }

  /** The inner loop over calm callbacks: one message, or for a fast endpoint all of them. */
  lemma {:induction false} CalmServe(s: State, e: Endpoint, script: seq<Turn>, x: Endpoint)
    requires Sound(s, []) && e in s.eps && x in s.eps && s.eps[e].up && Calm(script)
    requires s.eps[e].wake ==> Turns(s.eps[e]) <= |script|
    ensures var (t, rest) := Serve(s, e, script);
      && Calm(rest) && Dealt(s, e, Turns(s.eps[e]), script, t, rest, x)
      && Listed(t) && Weight(AllMail(t.order, t.eps)) + Turns(s.eps[e]) <= Weight(AllMail(s.order, s.eps))
    decreases |s.eps[e].queue|
  {
    hide Sound, Serve, ServeOne, Calm, Answers, Weight, AllMail, Listed, Dealt;
    var q := s.eps[e].queue;
    if q == [] {
      ServeDone(s, e, script);
      SoundListed(s, []);
      DealtNone(s, e, script, x);
    } else {
      var turn, rest := NextTurn(s, e, script), RestTurns(s.eps[e].wake, script);
      var u := ServeOne(s, e, turn);
      CalmOne(s, e, script, x);
      CalmOne(s, e, script, e);
      DealtKeeps(s, e, 1, script, u, rest);
      ServeRound(s, e, script, turn, rest);
      if s.eps[e].fast {
        CalmServe(u, e, rest, x);
        CalmServe(u, e, rest, e);
        DealtMore(s, e, |q| - 1, script, u, rest, Serve(u, e, rest).0, Serve(u, e, rest).1, x);
      }
    }
  }

  /** What the visit of e comes to for x: e is served unless it is down, and freed if it is gone and unreferenced. */
  ghost predicate Visited(s: State, e: Endpoint, script: seq<Turn>, t: State, rest: seq<Turn>, x: Endpoint)
    requires e in s.eps && x in s.eps
  {
    var a, n := s.eps[e], Turns(s.eps[e]);
    && (a.wake ==> n <= |script|) && rest == (if a.wake then script[n..] else script)
    && (x in t.eps <==> !(x == e && !a.up && a.refs <= 0))
    && (x in t.eps ==>
          && SameFlags(t.eps[x], s.eps[x])
          && t.eps[x].queue ==
               if x == e then a.queue[n..]
               else s.eps[x].queue + if s.eps[x].receiving then Answers(a.queue[..n], a.wake, script, x) else [])
  }

  lemma CalmUp(s: State, e: Endpoint, script: seq<Turn>, x: Endpoint)
    requires Sound(s, []) && e in s.eps && x in s.eps && s.eps[e].up && Calm(script)
    requires s.eps[e].wake ==> Turns(s.eps[e]) <= |script|
    ensures var (t, rest) := Serve(s, e, script);
      && Visit(s, e, script) == (t, rest) && Calm(rest) && Visited(s, e, script, t, rest, x)
      && Weight(AllMail(t.order, t.eps)) + Turns(s.eps[e]) <= Weight(AllMail(s.order, s.eps))
  {
    hide Sound, Serve, Calm, Answers, Weight, AllMail, Listed;
    CalmServe(s, e, script, x);
    CalmServe(s, e, script, e);
  }

  lemma Down(s: State, e: Endpoint, script: seq<Turn>, x: Endpoint)
    requires Sound(s, []) && e in s.eps && x in s.eps && !s.eps[e].up
    ensures var (t, rest) := Visit(s, e, script);
      && rest == script && Visited(s, e, script, t, rest, x)
      && Weight(AllMail(t.order, t.eps)) == Weight(AllMail(s.order, s.eps))
  {
    hide Sound, Serve, Weight, AllMail, Listed, Without, Answers;
    DownEmpty(s, e);
    NoAnswers(s.eps[e].wake, script, x);
    assert s.eps[x].queue + [] == s.eps[x].queue;
  }

  lemma NoAnswers(wake: bool, script: seq<Turn>, x: Endpoint)
    ensures Answers([], wake, script, x) == []
  {
  }

  lemma DownEmpty(s: State, e: Endpoint)
    requires Sound(s, []) && e in s.eps && !s.eps[e].up
    ensures s.eps[e].queue == [] && (forall x :: x in s.order ==> x in s.eps)
    ensures var order, eps := Without(s.order, e), s.eps - {e};
      (forall x :: x in order ==> x in eps) && AllMail(order, eps) == AllMail(s.order, s.eps)
  {
    assert Settled(s.eps[e]);
    WithoutKeeps(s.order, e);
    WithoutMail(s.order, s.eps, e);
  }

  /** One endpoint of a pass over calm callbacks: the messages it deals with are gone from its queue, each request among
    * them is answered with the verdict if its sender receives, and nothing else moves. */
  lemma CalmVisit(s: State, e: Endpoint, script: seq<Turn>, x: Endpoint)
    requires Sound(s, []) && e in s.eps && x in s.eps && Calm(script)
    requires s.eps[e].wake ==> Turns(s.eps[e]) <= |script|
    ensures var (t, rest) := Visit(s, e, script);
      && Calm(rest) && Visited(s, e, script, t, rest, x)
      && Listed(t) && Weight(AllMail(t.order, t.eps)) + Turns(s.eps[e]) <= Weight(AllMail(s.order, s.eps))
  {
    var (t, rest) := Visit(s, e, script);
    SoundListed(t, []);
    hide Sound, Visit, Serve, Calm, Visited, Weight, AllMail, Listed;
    if s.eps[e].up {
      CalmUp(s, e, script, x);
    } else {
      Down(s, e, script, x);
    }
  }

  function AllTurns(s: State, pending: seq<Endpoint>): nat
    requires forall e :: e in pending ==> e in s.eps
  {
    if pending == [] then 0 else Turns(s.eps[pending[0]]) + AllTurns(s, pending[1..])
  }

  /** The turns do not get fewer by what comes into the queues. */
  lemma {:induction false} TurnsGrow(s: State, t: State, pending: seq<Endpoint>)
    requires forall e :: e in pending ==> e in s.eps && e in t.eps
    requires forall e :: e in pending ==> SameFlags(t.eps[e], s.eps[e]) && |s.eps[e].queue| <= |t.eps[e].queue|
    ensures AllTurns(s, pending) <= AllTurns(t, pending)
  {
    if pending != [] {
      assert pending[0] in pending;
      TurnsGrow(s, t, pending[1..]);
    }
  }

  lemma {:induction false} QueueWeight(order: seq<Endpoint>, eps: map<Endpoint, Ep>, e: Endpoint)
    requires e in order && forall x :: x in order ==> x in eps
    ensures |eps[e].queue| <= Weight(AllMail(order, eps))
  {
    WeightConcat(eps[order[0]].queue, AllMail(order[1..], eps));
    if order[0] == e {
      LengthWeight(eps[e].queue);
    } else {
      QueueWeight(order[1..], eps, e);
    }
  }

  lemma {:induction false} LengthWeight(q: seq<Mail>)
    ensures |q| <= Weight(q)
  {
    if q != [] {
      LengthWeight(q[1..]);
    }
  }

  lemma EnoughTurns(s: State, e: Endpoint, script: seq<Turn>)
    requires Sound(s, []) && e in s.eps && Weight(AllMail(s.order, s.eps)) <= |script|
    ensures Turns(s.eps[e]) <= |script|
  {
    SoundListed(s, []);
    QueueWeight(s.order, s.eps, e);
  }

  /** The visit of one endpoint takes nothing from the others. */
  lemma OthersGrow(s: State, e: Endpoint, script: seq<Turn>, more: seq<Endpoint>)
    requires Sound(s, []) && e in s.eps && Calm(script) && (s.eps[e].wake ==> Turns(s.eps[e]) <= |script|)
    requires e !in more && (forall x :: x in more ==> x in s.eps)
    ensures var u := Visit(s, e, script).0;
      (forall x :: x in more ==> x in u.eps) && AllTurns(s, more) <= AllTurns(u, more)
  {
    hide Sound, Visit, Calm, Weight, AllMail, Listed, Answers;
    var u := Visit(s, e, script).0;
    forall x | x in more
      ensures x in u.eps && SameFlags(u.eps[x], s.eps[x]) && |s.eps[x].queue| <= |u.eps[x].queue|
    {
      CalmVisit(s, e, script, x);
    }
    TurnsGrow(s, u, more);
  }

  /** With turns enough for all the mail there is, a pass over calm callbacks takes at least one message off the work
    * that is left for each endpoint that is up with mail, and all of them if it is fast. */
  lemma {:induction false} PassWorks(s: State, pending: seq<Endpoint>, script: seq<Turn>)
    requires Sound(s, []) && NoDup(pending) && (forall e :: e in pending ==> e in s.eps)
    requires Calm(script) && Weight(AllMail(s.order, s.eps)) <= |script|
    ensures var t := Pass(s, pending, script);
      Listed(t) && Weight(AllMail(t.order, t.eps)) + AllTurns(s, pending) <= Weight(AllMail(s.order, s.eps))
    decreases |pending|
  {
    if pending == [] {
      PassDone(s, script);
      SoundListed(s, []);
    } else {
      var e, more := pending[0], pending[1..];
      var (u, rest) := Visit(s, e, script);
      EnoughTurns(s, e, script);
      PassRound(s, pending, script);
      CalmVisit(s, e, script, e);
      OthersGrow(s, e, script, more);
      hide Sound, Visit, Pass, Calm, Weight, AllMail, Listed, Answers;
      PassWorks(u, more, rest);
    }
  }

  /** What is left of the mail that x has when the pass begins. */
  function Left(x: Ep, served: bool): seq<Mail> {
    if served then x.queue[Turns(x)..] else x.queue
  }

  /** b is what was left of a queue followed by replies to x. */
  predicate RepliesAfter(a: seq<Mail>, b: seq<Mail>, x: Endpoint) {
    a <= b && forall m :: m in b[|a|..] ==> m.kind.Reply? && m.to == x
  }

  lemma RepliesOn(a: Ep, more: seq<Mail>, served: bool, b: Ep, c: seq<Mail>, x: Endpoint)
    requires SameFlags(b, a) && b.queue == a.queue + more && (forall m :: m in more ==> m.kind.Reply? && m.to == x)
    requires RepliesAfter(Left(b, served), c, x)
    ensures RepliesAfter(Left(a, served), c, x)
  {
    var l, k := Left(a, served), Left(b, served);
    var n := |k| - |l|;
    assert l <= c && forall i :: 0 <= i < |k| ==> c[i] == k[i];
    forall m | m in c[|l|..]
      ensures m.kind.Reply? && m.to == x
    {
      var i :| |l| <= i < |c| && c[i] == m;
      if i >= |k| {
        assert m in c[|k|..];
      } else {
        assert k[i] in more;
      }
    }
  }

  /** And every endpoint finds its mail dealt with: one that is up with mail has lost its head, and all it had if it is
    * fast; the rest is in its order, and behind it there are only replies that came in on the way. */
  lemma {:induction false} PassDelivers(s: State, pending: seq<Endpoint>, script: seq<Turn>, x: Endpoint)
    requires Sound(s, []) && NoDup(pending) && (forall e :: e in pending ==> e in s.eps)
    requires Calm(script) && Weight(AllMail(s.order, s.eps)) <= |script|
    ensures var t := Pass(s, pending, script);
      && (x in s.eps && s.eps[x].up ==> x in t.eps)
      && (x in t.eps ==>
            && x in s.eps && SameFlags(t.eps[x], s.eps[x])
            && RepliesAfter(Left(s.eps[x], x in pending), t.eps[x].queue, x))
    decreases |pending|
  {
    if pending == [] {
      PassDone(s, script);
    } else {
      var e, more := pending[0], pending[1..];
      var (u, rest) := Visit(s, e, script);
      EnoughTurns(s, e, script);
      PassRound(s, pending, script);
      CalmVisit(s, e, script, e);
      hide Sound, Visit, Pass, Calm, Weight, AllMail, Listed, Answers, Left, RepliesAfter, Visited;
      PassDelivers(u, more, rest, x);
      if x in s.eps {
        VisitDelivers(s, e, script, u, rest, more, x, Pass(u, more, rest));
      } else {
        VisitFresh(s, e, script, x);
      }
    }
  }

  lemma VisitFresh(s: State, e: Endpoint, script: seq<Turn>, x: Endpoint)
    requires Sound(s, []) && e in s.eps && x !in s.eps
    ensures x !in Visit(s, e, script).0.eps
  {
  }

  lemma VisitDelivers(s: State, e: Endpoint, script: seq<Turn>, u: State, rest: seq<Turn>, more: seq<Endpoint>,
                      x: Endpoint, t: State)
    requires Sound(s, []) && e in s.eps && x in s.eps && e !in more && Calm(script)
    requires (s.eps[e].wake ==> Turns(s.eps[e]) <= |script|) && (u, rest) == Visit(s, e, script)
    requires x in u.eps && u.eps[x].up ==> x in t.eps
    requires x in t.eps ==>
      && x in u.eps && SameFlags(t.eps[x], u.eps[x])
      && RepliesAfter(Left(u.eps[x], x in more), t.eps[x].queue, x)
    ensures s.eps[x].up ==> x in t.eps
    ensures x in t.eps ==>
      && SameFlags(t.eps[x], s.eps[x])
      && RepliesAfter(Left(s.eps[x], x == e || x in more), t.eps[x].queue, x)
  {
    CalmVisit(s, e, script, x);
    hide Sound, Visit, Calm, Weight, AllMail, Listed, RepliesAfter, Answers;
    if x in t.eps && x != e {
      var a, n := s.eps[e], Turns(s.eps[e]);
      AnswersReply(a.queue[..n], a.wake, script, x);
      var sent := if s.eps[x].receiving then Answers(a.queue[..n], a.wake, script, x) else [];
      RepliesOn(s.eps[x], sent, x in more, u.eps[x], t.eps[x].queue, x);
    }
  }
}
