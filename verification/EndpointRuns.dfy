/** Whole runs of the endpoint layer: memory safety, the fate of every request that is owed a reply, and draining. */
module EndpointRuns {
  import opened EndpointState
  import opened EndpointSteps
  import opened EndpointCalls

  // ---- the books of owed requests ----

  /** How often the books know the request m, by what became of it. */
  function Fates(s: State, loose: seq<Mail>, m: Mail): nat
    requires forall e :: e in s.order ==> e in s.eps
  {
    Owing(AllMail(s.order, s.eps), m) + Owing(loose, m) + s.books.answered[m] + s.books.stranded[m] + s.books.owned[m]
  }

  lemma BooksAt(s: State, loose: seq<Mail>, m: Mail)
    requires (forall e :: e in s.order ==> e in s.eps) && Balanced(s, loose)
    ensures s.books.accepted[m] == Fates(s, loose, m)
  {
    OwedCount(AllMail(s.order, s.eps), m);
    OwedCount(loose, m);
  }

  lemma BooksEverywhere(s: State, loose: seq<Mail>)
    requires forall e :: e in s.order ==> e in s.eps
    requires forall m :: s.books.accepted[m] == Fates(s, loose, m)
    ensures Balanced(s, loose)
  {
    var all := Owed(AllMail(s.order, s.eps)) + Owed(loose) + s.books.answered + s.books.stranded + s.books.owned;
    forall m
      ensures s.books.accepted[m] == all[m]
    {
      assert s.books.accepted[m] == Fates(s, loose, m);
      OwedCount(AllMail(s.order, s.eps), m);
      OwedCount(loose, m);
    }
    SameCounts(s.books.accepted, all);
  }

  lemma SameCounts(a: multiset<Mail>, b: multiset<Mail>)
    requires forall m :: a[m] == b[m]
    ensures a == b
  {
  }

  lemma OwingOne(m: Mail, x: Mail)
    ensures Owing([m], x) == if m == x && m.Owed() then 1 else 0
  {
    assert [m][1..] == [];
  }

  lemma AppendOwing(s: State, m: Mail, x: Mail)
    requires Listed(s) && Loose(s.eps, m)
    ensures Owing(AllMail(s.order, Append(s.eps, m)), x) == Owing(AllMail(s.order, s.eps), x) + Owing([m], x)
  {
    SwapOwing(s.order, s.eps, Append(s.eps, m), m.to, x);
    OwingConcat(s.eps[m.to].queue, [m], x);
  }

  lemma PopBalanced(s: State, e: Endpoint)
    requires Listed(s) && Balanced(s, []) && e in s.eps && s.eps[e].queue != []
    ensures Balanced(s.(eps := Pop(s.eps, e)), [s.eps[e].queue[0]])
  {
    var m, t := s.eps[e].queue[0], s.(eps := Pop(s.eps, e));
    forall x
      ensures Owing(AllMail(t.order, t.eps), x) + Owing([m], x) == Owing(AllMail(s.order, s.eps), x)
    {
      SwapOwing(s.order, s.eps, t.eps, e, x);
      OwingOne(m, x);
    }
    forall x
      ensures t.books.accepted[x] == Fates(t, [m], x)
    {
      BooksAt(s, [], x);
    }
    BooksEverywhere(t, [m]);
  }

  /** Dropping a loose message that is owed nothing leaves the books balanced. */
  lemma UnmentionBalanced(s: State, m: Mail, t: State)
    requires Sound(s, [m]) && Loose(s.eps, m) && t.order == s.order && t.eps == Unmention(s.eps, m)
    ensures AllMail(t.order, t.eps) == AllMail(s.order, s.eps)
  {
    LooseReferenced(s, m);
    UnmentionAdjusted(s.eps, m);
    SameMail(s.order, s.eps, t.eps);
  }

  /** The sender of a request takes the reply. */
  lemma ReplyFates(s: State, m: Mail, code: Verdict, x: Mail)
    requires Sound(s, [m]) && Loose(s.eps, m) && m.kind.Request? && m.wack
    requires var r := m.Turned(code); r.to != null && r.to in s.eps && s.eps[r.to].receiving
    ensures Listed(Dispose(s, m, code)) && Fates(Dispose(s, m, code), [], x) == Fates(s, [m], x)
  {
    var r := m.Turned(code);
    TurnSound(s, m, code);
    AppendOwing(s, r, x);
    OwingOne(m, x);
    OwingOne(r, x);
  }

  /** The sender of a request takes nothing any more. */
  lemma StrandedFates(s: State, m: Mail, code: Verdict, x: Mail)
    requires Sound(s, [m]) && Loose(s.eps, m) && m.kind.Request? && m.wack
    requires var r := m.Turned(code); r.to != null && r.to in s.eps && !s.eps[r.to].receiving
    ensures Listed(Dispose(s, m, code)) && Fates(Dispose(s, m, code), [], x) == Fates(s, [m], x)
  {
    TurnSound(s, m, code);
    OwingOne(m, x);
    UnmentionBalanced(s, m.Turned(code), Dispose(s, m, code));
  }

  /** No reply is owed. */
  lemma DestroyFates(s: State, m: Mail, code: Verdict, x: Mail)
    requires Sound(s, [m]) && Loose(s.eps, m) && !(m.kind.Request? && m.wack)
    ensures Listed(Dispose(s, m, code)) && Fates(Dispose(s, m, code), [], x) == Fates(s, [m], x)
  {
    OwingOne(m, x);
    UnmentionBalanced(s, m, Dispose(s, m, code));
  }

  lemma DisposeFates(s: State, m: Mail, code: Verdict, x: Mail)
    requires Sound(s, [m]) && Loose(s.eps, m)
    ensures Listed(Dispose(s, m, code)) && Fates(Dispose(s, m, code), [], x) == Fates(s, [m], x)
  {
    hide Sound, Dispose, Fates, Listed;
    if !(m.kind.Request? && m.wack) {
      DestroyFates(s, m, code, x);
    } else if s.eps[m.from].receiving {
      ReplyFates(s, m, code, x);
    } else {
      StrandedFates(s, m, code, x);
    }
  }

  lemma DisposeBalanced(s: State, m: Mail, code: Verdict)
    requires Sound(s, [m]) && Loose(s.eps, m) && Balanced(s, [m])
    ensures Balanced(Dispose(s, m, code), [])
  {
    hide *;
    var t := Dispose(s, m, code);
    DisposeAt(s, m, code, m);
    forall x
      ensures t.books.accepted[x] == Fates(t, [], x)
    {
      DisposeAt(s, m, code, x);
    }
    BooksEverywhere(t, []);
  }

  lemma DisposeAt(s: State, m: Mail, code: Verdict, x: Mail)
    requires Sound(s, [m]) && Loose(s.eps, m) && Balanced(s, [m])
    ensures var t := Dispose(s, m, code);
      (forall e :: e in t.order ==> e in t.eps) && t.books.accepted[x] == Fates(t, [], x)
  {
    BooksAt(s, [m], x);
    DisposeFates(s, m, code, x);
  }

  lemma {:induction false} FlushBalanced(s: State, e: Endpoint)
    requires Sound(s, []) && Flushable(s.eps, e) && Balanced(s, [])
    ensures Sound(Flush(s, e), []) && Balanced(Flush(s, e), [])
    decreases |s.eps[e].queue|
  {
    FlushSound(s, e);
    if s.eps[e].queue != [] {
      PopBalanced(s, e);
      PopSound(s, e);
      assert Placed(s.eps, e, s.eps[e].queue[0]);
      DisposeBalanced(s.(eps := Pop(s.eps, e)), s.eps[e].queue[0], Fail);
      FlushFirstSound(s, e);
      FlushBalanced(FlushFirst(s, e), e);
    }
  }

  ghost predicate Balances(s: State) {
    (forall e :: e in s.order ==> e in s.eps) && Balanced(s, [])
  }

  lemma FlagsBalances(s: State, e: Endpoint, x: Ep)
    requires Sound(s, []) && Balances(s) && e in s.eps && x.refs == s.eps[e].refs && x.queue == s.eps[e].queue
      && Settled(x)
    ensures Sound(s.(eps := s.eps[e := x]), []) && Balances(s.(eps := s.eps[e := x]))
  {
    FlagsSound(s, e, x);
    SameMail(s.order, s.eps, s.eps[e := x]);
  }

  lemma ReleaseBalanced(s: State, e: Endpoint)
    requires Sound(s, []) && Flushable(s.eps, e) && Balances(s)
    ensures Balances(Release(s, e))
  {
    if s.eps[e].up {
      var x := s.eps[e].(wake := false);
      FlagsBalances(s, e, x);
      var t := s.(eps := s.eps[e := x]);
      FlushBalanced(t, e);
      var u := Flush(t, e);
      FlagsBalances(u, e, u.eps[e].(up := false, receiving := false, sending := false));
    }
  }

  lemma OwnBalanced(p: State, m: Mail, t: State)
    requires Sound(p, [m]) && Loose(p.eps, m) && Balanced(p, [m])
    requires t == Destroy(p, m).(books := if m.Owed() then p.books.(owned := p.books.owned + multiset{m}) else p.books)
    ensures Listed(t) && Balanced(t, [])
  {
    UnmentionBalanced(p, m, t);
    forall x
      ensures t.books.accepted[x] == Fates(t, [], x)
    {
      BooksAt(p, [m], x);
      OwingOne(m, x);
    }
    BooksEverywhere(t, []);
  }

  lemma DeliverBalanced(s: State, e: Endpoint, v: Verdict)
    requires Sound(s, []) && Flushable(s.eps, e) && s.eps[e].queue != [] && Balances(s)
    ensures Balances(Deliver(s, e, v))
  {
    var m, p := s.eps[e].queue[0], s.(eps := Pop(s.eps, e));
    assert Placed(s.eps, e, m);
    PopSound(s, e);
    PopBalanced(s, e);
    DeliverSound(s, e, v);
    if v.Own? {
      OwnBalanced(p, m, Deliver(s, e, v));
    } else if !v.Pause? && !v.Yield? {
      DisposeBalanced(p, m, v);
    }
  }

  lemma SendBalanced(s: State, m: Mail)
    requires Sound(s, []) && Sendable(s, m) && Balances(s)
    ensures Balances(Send(s, m))
  {
    if !Refused(s, m) {
      var t := Send(s, m);
      MentionAdjusted(s.eps, m);
      assert t.order == s.order && t.eps.Keys == s.eps.Keys;
      forall x
        ensures t.books.accepted[x] == Fates(t, [], x)
      {
        SendFates(s, m, x);
      }
      hide Sound, Send, Fates;
      BooksEverywhere(t, []);
    }
  }

  lemma SendFates(s: State, m: Mail, x: Mail)
    requires Sound(s, []) && Sendable(s, m) && Balances(s) && !Refused(s, m)
    ensures forall e :: e in s.order ==> e in Send(s, m).eps
    ensures Send(s, m).books.accepted[x] == Fates(Send(s, m), [], x)
  {
    var p := s.(eps := Mention(s.eps, m));
    MentionAdjusted(s.eps, m);
    SameMail(s.order, s.eps, p.eps);
    BooksAt(s, [], x);
    OwingOne(m, x);
    AppendOwing(p, m, x);
  }

  // ---- what becomes of one message, and of a flushed queue ----

  /** A request that is owed a reply, when it is disposed of, puts exactly one reply into the queue of its sender if
    * that sender still receives, and nothing anywhere otherwise; no other message puts anything into any queue. */
  lemma DisposeExact(s: State, m: Mail, code: Verdict, e: Endpoint)
    requires Loose(s.eps, m) && e in s.eps
    ensures Dispose(s, m, code).eps[e].queue == s.eps[e].queue +
      if m.kind.Request? && m.wack && m.from == e && s.eps[e].receiving then
        [Mail(Reply(code), m.name, m.to, m.from, false)]
      else []
    ensures Dispose(s, m, code).eps[e].receiving == s.eps[e].receiving
  {
    if m.kind.Request? && m.wack {
      UnmentionQueues(s.eps, m.Turned(code), e);
    } else {
      UnmentionQueues(s.eps, m, e);
    }
  }

  /** The books say what became of it: answered or stranded if it is owed a reply, and nothing otherwise. */
  lemma DisposeBooks(s: State, m: Mail, code: Verdict)
    requires Loose(s.eps, m)
    ensures Dispose(s, m, code).books ==
      if !(m.kind.Request? && m.wack) then s.books
      else if s.eps[m.from].receiving then s.books.(answered := s.books.answered + multiset{m})
      else s.books.(stranded := s.books.stranded + multiset{m})
  {
  }

  /** A send that is not refused puts the message at the end of the queue of its receiver, whatever its kind; it is
    * refused by a receiver that takes nothing, by a sender that may not send, and by an endpoint that sends to
    * itself. */
  lemma SendExact(s: State, m: Mail, e: Endpoint)
    requires Sendable(s, m) && e in s.eps
    ensures var taken := s.eps[m.to].receiving && m.from != m.to && (m.from == null || s.eps[m.from].sending);
      && Send(s, m).eps[e].queue == s.eps[e].queue + (if taken && m.to == e then [m] else [])
      && Send(s, m).books == if taken && m.kind.Request? && m.wack
                             then s.books.(accepted := s.books.accepted + multiset{m}) else s.books
  {
    if !Refused(s, m) {
      MentionAdjusted(s.eps, m);
    }
  }

  /** What each verdict does to the queues: the head goes, except that a pause and a yield leave everything, and for all
    * but a message that the callback has taken over, what is owed is answered with the verdict. */
  lemma DeliverExact(s: State, e: Endpoint, v: Verdict, x: Endpoint)
    requires Flushable(s.eps, e) && s.eps[e].queue != [] && x in s.eps
    ensures var m, q := s.eps[e].queue[0], Deliver(s, e, v).eps[x].queue;
      if v.Pause? || v.Yield? then Deliver(s, e, v) == s
      else if x == e then q == s.eps[e].queue[1..]
      else if !v.Own? && m.kind.Request? && m.wack && m.from == x && s.eps[x].receiving then
        q == s.eps[x].queue + [Mail(Reply(v), m.name, e, x, false)]
      else q == s.eps[x].queue
    ensures v.Own? ==> var m := s.eps[e].queue[0];
      Deliver(s, e, v).books
        == if m.kind.Request? && m.wack then s.books.(owned := s.books.owned + multiset{m}) else s.books
  {
    var m, p := s.eps[e].queue[0], s.(eps := Pop(s.eps, e));
    assert Placed(s.eps, e, m);
    if v.Own? {
      UnmentionQueues(p.eps, m, x);
    } else if !v.Pause? && !v.Yield? {
      DisposeExact(p, m, v, x);
    }
  }

  /** The replies a list of messages owes to e, in the order of the list. */
  function RepliesTo(q: seq<Mail>, e: Endpoint, code: Verdict): seq<Mail> {
    if q == [] then []
    else
      (if q[0].kind.Request? && q[0].wack && q[0].from == e then [Mail(Reply(code), q[0].name, q[0].to, e, false)]
       else []) + RepliesTo(q[1..], e, code)
  }

  /** Flushing fails every request that is owed a reply, once and in order, towards the senders that still receive. */
  lemma {:induction false} FlushExact(s: State, e: Endpoint, x: Endpoint)
    requires Flushable(s.eps, e) && x in s.eps && x != e
    ensures Flush(s, e).eps[x].queue ==
      s.eps[x].queue + if s.eps[x].receiving then RepliesTo(s.eps[e].queue, x, Fail) else []
    decreases |s.eps[e].queue|
  {
    if s.eps[e].queue != [] {
      FlushFirstExact(s, e, x);
      FlushExact(FlushFirst(s, e), e, x);
    }
  }

  lemma FlushFirstExact(s: State, e: Endpoint, x: Endpoint)
    requires Flushable(s.eps, e) && s.eps[e].queue != [] && x in s.eps && x != e
    ensures FlushFirst(s, e).eps[x].receiving == s.eps[x].receiving
    ensures s.eps[x].receiving ==>
      FlushFirst(s, e).eps[x].queue + RepliesTo(s.eps[e].queue[1..], x, Fail)
        == s.eps[x].queue + RepliesTo(s.eps[e].queue, x, Fail)
    ensures !s.eps[x].receiving ==> FlushFirst(s, e).eps[x].queue == s.eps[x].queue
  {
    var m, p := s.eps[e].queue[0], s.(eps := Pop(s.eps, e));
    assert Placed(s.eps, e, m);
    DisposeExact(p, m, Fail, x);
    var reply := if m.Owed() && m.from == x then [Mail(Reply(Fail), m.name, m.to, x, false)] else [];
    Associate(s.eps[x].queue, reply, RepliesTo(s.eps[e].queue[1..], x, Fail), []);
    assert s.eps[x].queue + (reply + RepliesTo(s.eps[e].queue[1..], x, Fail))
        == s.eps[x].queue + reply + RepliesTo(s.eps[e].queue[1..], x, Fail);
  }

  /** Releasing an endpoint leaves it gone and empty, and answers what was in its queue. */
  lemma ReleaseExact(s: State, e: Endpoint, x: Endpoint)
    requires Flushable(s.eps, e) && x in s.eps && s.eps[e].up
    ensures var t := Release(s, e);
      if x == e then !t.eps[e].up && !t.eps[e].receiving && t.eps[e].queue == []
      else t.eps[x].queue == s.eps[x].queue + if s.eps[x].receiving then RepliesTo(s.eps[e].queue, x, Fail) else []
  {
    if x != e {
      FlushExact(s.(eps := s.eps[e := s.eps[e].(wake := false)]), e, x);
    }
  }

  // ---- runs ----

  datatype Step =
    | Created(e: Endpoint, wake: bool, fast: bool)
    | Sent(m: Mail)
    | Held(e: Endpoint)
    | Dropped(e: Endpoint)
    | ClosedReceiving(e: Endpoint)
    | ClosedSending(e: Endpoint)
    | Released(e: Endpoint)
    | Woken(e: Endpoint, v: Verdict)
    | Collected(e: Endpoint)

  /** What the callers of the layer and the pass over the endpoints grant before each step. */
  predicate Legal(s: State, st: Step) {
    match st
    case Created(e, _, _) => e !in s.eps
    case Sent(m) => Sendable(s, m)
    case Held(e) => e in s.eps
    case Dropped(e) => e in s.holders
    case ClosedReceiving(e) => e in s.eps
    case ClosedSending(e) => e in s.eps
    case Released(e) => e in s.eps
    case Woken(e, v) => e in s.eps && s.eps[e].up && s.eps[e].queue != [] && (s.eps[e].wake || v == Fail)
    case Collected(e) => Collectable(s, e)
  }

  ghost function ReleaseStep(s: State, e: Endpoint): State
    requires Sound(s, []) && e in s.eps
  {
    PlacedLoose(s, e);
    Release(s, e)
  }

  ghost function WakeStep(s: State, e: Endpoint, v: Verdict): State
    requires Sound(s, []) && e in s.eps && s.eps[e].queue != []
  {
    PlacedLoose(s, e);
    Deliver(s, e, v)
  }

  lemma WakeStepIs(s: State, e: Endpoint, v: Verdict)
    requires Sound(s, []) && e in s.eps && s.eps[e].queue != []
    ensures Flushable(s.eps, e) && WakeStep(s, e, v) == Deliver(s, e, v)
    ensures v.Pause? || v.Yield? ==> Deliver(s, e, v) == s
  {
    PlacedLoose(s, e);
  }

  ghost function Apply(s: State, st: Step): State
    requires Sound(s, []) && Legal(s, st)
  {
    hide Sound;
    match st
    case Created(e, wake, fast) => Create(s, e, wake, fast)
    case Sent(m) => Send(s, m)
    case Held(e) => s.(eps := Referenced(s.eps, e), holders := s.holders + multiset{e})
    case Dropped(e) => DropSound(s, e); s.(eps := Forgotten(s.eps, e), holders := s.holders - multiset{e})
    case ClosedReceiving(e) => if s.eps[e].up then s.(eps := s.eps[e := s.eps[e].(receiving := false)]) else s
    case ClosedSending(e) => if s.eps[e].up then s.(eps := s.eps[e := s.eps[e].(sending := false)]) else s
    case Released(e) => ReleaseStep(s, e)
    case Woken(e, v) => WakeStep(s, e, v)
    case Collected(e) => Collect(s, e)
  }

  /** Every legal step keeps the invariant. */
  lemma StepSound(s: State, st: Step)
    requires Sound(s, []) && Legal(s, st)
    ensures Sound(Apply(s, st), [])
  {
    match st
    case Created(e, wake, fast) => CreateSound(s, e, wake, fast);
    case Sent(m) => SendSound(s, m);
    case Held(e) => HoldSound(s, e);
    case Dropped(e) => DropSound(s, e);
    case ClosedReceiving(e) => FlagsSound(s, e, s.eps[e].(receiving := false));
    case ClosedSending(e) => FlagsSound(s, e, s.eps[e].(sending := false));
    case Released(e) => PlacedLoose(s, e); ReleaseSound(s, e);
    case Woken(e, v) => PlacedLoose(s, e); DeliverSound(s, e, v);
    case Collected(e) => CollectSound(s, e);
  }

  lemma HolderBalances(s: State, t: State)
    requires Sound(s, []) && Balances(s) && t.order == s.order && t.books == s.books && t.eps.Keys == s.eps.Keys
    requires forall x :: x in s.eps ==> t.eps[x].queue == s.eps[x].queue
    ensures Balances(t)
  {
    SameMail(s.order, s.eps, t.eps);
  }

  lemma CollectBalances(s: State, e: Endpoint)
    requires Sound(s, []) && Balances(s) && Collectable(s, e)
    ensures Balances(Collect(s, e))
  {
    WithoutKeeps(s.order, e);
    WithoutMail(s.order, s.eps, e);
  }

  lemma HeldBalances(s: State, e: Endpoint)
    requires Sound(s, []) && Balances(s) && e in s.eps
    ensures Balances(s.(eps := Referenced(s.eps, e), holders := s.holders + multiset{e}))
  {
    HolderBalances(s, s.(eps := Referenced(s.eps, e), holders := s.holders + multiset{e}));
  }

  lemma DroppedBalances(s: State, e: Endpoint)
    requires Sound(s, []) && Balances(s) && e in s.holders && e in s.eps
    ensures Balances(s.(eps := Forgotten(s.eps, e), holders := s.holders - multiset{e}))
  {
    HolderBalances(s, s.(eps := Forgotten(s.eps, e), holders := s.holders - multiset{e}));
  }

  /** Every legal step keeps the books. */
  lemma StepBalanced(s: State, st: Step)
    requires Sound(s, []) && Legal(s, st) && Balances(s)
    ensures Balances(Apply(s, st))
  {
    match st
    case Created(e, wake, fast) => CreateMail(s, e, wake, fast);
    case Sent(m) => SendBalanced(s, m);
    case Held(e) => HeldBalances(s, e);
    case Dropped(e) => DropSound(s, e); DroppedBalances(s, e);
    case ClosedReceiving(e) => FlagsBalances(s, e, s.eps[e].(receiving := false));
    case ClosedSending(e) => FlagsBalances(s, e, s.eps[e].(sending := false));
    case Released(e) => PlacedLoose(s, e); ReleaseBalanced(s, e);
    case Woken(e, v) => PlacedLoose(s, e); DeliverBalanced(s, e, v);
    case Collected(e) => CollectBalances(s, e);
  }

  /** t is reached from s by the legal steps of a run. */
  ghost predicate Leads(s: State, run: seq<Step>, t: State)
    requires Sound(s, [])
    decreases |run|
  {
    if run == [] then s == t
    else Legal(s, run[0]) && (StepSound(s, run[0]); Leads(Apply(s, run[0]), run[1..], t))
  }

  function Nothing(): State {
    State([], map[], multiset{}, Books(multiset{}, multiset{}, multiset{}, multiset{}))
  }

  lemma {:induction false} RunSound(s: State, run: seq<Step>, t: State)
    requires Sound(s, []) && Balances(s) && Leads(s, run, t)
    ensures Sound(t, []) && Balances(t)
    decreases |run|
  {
    if run != [] {
      StepSound(s, run[0]);
      StepBalanced(s, run[0]);
      RunSound(Apply(s, run[0]), run[1..], t);
    }
  }

  /** Over every run from the start: counts are exact, gone endpoints are empty, nothing in a queue or held outside
    * points to an endpoint that has been freed, and every accepted request has exactly one fate. */
  lemma Safety(run: seq<Step>, t: State)
    requires Leads(Nothing(), run, t)
    ensures Listed(t)
    ensures forall e :: e in t.eps ==> t.eps[e].refs == t.holders[e] + Mentions(AllMail(t.order, t.eps), e)
    ensures forall e :: e in t.eps && !t.eps[e].up ==> t.eps[e].queue == [] && !t.eps[e].receiving && !t.eps[e].sending
    ensures forall e, m, x :: e in t.eps && m in t.eps[e].queue && Names(m, x) > 0 ==> x in t.eps
    ensures forall e :: e in t.holders ==> e in t.eps
    ensures t.books.accepted == Owed(AllMail(t.order, t.eps)) + t.books.answered + t.books.stranded + t.books.owned
  {
    RunSound(Nothing(), run, t);
    NoneDangling(t);
  }

  lemma NoneDangling(t: State)
    requires Sound(t, [])
    ensures forall e, m, x :: e in t.eps && m in t.eps[e].queue && Names(m, x) > 0 ==> x in t.eps
  {
    forall e, m, x | e in t.eps && m in t.eps[e].queue && Names(m, x) > 0
      ensures x in t.eps
    {
      assert Placed(t.eps, e, m);
    }
  }

  /** A gone endpoint stays gone, empty and deaf until the collector frees it, whatever the run does. */
  lemma {:induction false} GoneForGood(s: State, run: seq<Step>, t: State, e: Endpoint)
    requires Sound(s, []) && Leads(s, run, t)
    requires e in s.eps ==> !s.eps[e].up
    requires forall st :: st in run && st.Created? ==> st.e != e
    ensures e in t.eps ==> e in s.eps && !t.eps[e].up && t.eps[e].queue == [] && !t.eps[e].receiving
    decreases |run|
  {
    if run == [] {
    } else {
      StepSound(s, run[0]);
      StepGone(s, run[0], e);
      GoneForGood(Apply(s, run[0]), run[1..], t, e);
    }
  }

  lemma StepGone(s: State, st: Step, e: Endpoint)
    requires Sound(s, []) && Legal(s, st) && (st.Created? ==> st.e != e)
    requires e in s.eps ==> !s.eps[e].up
    ensures var t := Apply(s, st); e in t.eps ==> e in s.eps && !t.eps[e].up
  {
    match st
    case Sent(m) => SendFlags(s, m, e);
    case Released(x) => ReleaseStepGone(s, x, e);
    case Woken(x, v) => WakeStepGone(s, x, v, e);
    case _ =>
  }

  lemma SendFlags(s: State, m: Mail, e: Endpoint)
    requires Sound(s, []) && Sendable(s, m)
    ensures Send(s, m).eps.Keys == s.eps.Keys && Send(s, m).order == s.order
    ensures e in s.eps ==> SameFlags(Send(s, m).eps[e], s.eps[e]) && s.eps[e].queue <= Send(s, m).eps[e].queue
  {
    if !Refused(s, m) {
      MentionAdjusted(s.eps, m);
    }
  }

  lemma ReleaseStepGone(s: State, x: Endpoint, e: Endpoint)
    requires Sound(s, []) && x in s.eps && (e in s.eps ==> !s.eps[e].up)
    ensures var t := ReleaseStep(s, x); e in t.eps ==> e in s.eps && !t.eps[e].up
  {
    PlacedLoose(s, x);
    ReleaseFlags(s, x, e);
  }

  lemma WakeStepGone(s: State, x: Endpoint, v: Verdict, e: Endpoint)
    requires Sound(s, []) && x in s.eps && s.eps[x].queue != [] && (e in s.eps ==> !s.eps[e].up)
    ensures var t := WakeStep(s, x, v); e in t.eps ==> e in s.eps && !t.eps[e].up
  {
    PlacedLoose(s, x);
    DeliverFlags(s, x, v, e);
  }

  predicate SameFlags(a: Ep, b: Ep) {
    a.(refs := b.refs, queue := b.queue) == b
  }

  lemma ReleaseFlags(s: State, x: Endpoint, e: Endpoint)
    requires Flushable(s.eps, x)
    ensures Release(s, x).eps.Keys == s.eps.Keys && Release(s, x).order == s.order
    ensures e in s.eps && !s.eps[e].up ==> !Release(s, x).eps[e].up
    ensures e in s.eps && e != x ==> SameFlags(Release(s, x).eps[e], s.eps[e])
  {
    if s.eps[x].up {
      var t := s.(eps := s.eps[x := s.eps[x].(wake := false)]);
      FlushFlags(t, x, if e in s.eps then e else x);
    }
  }

  lemma {:induction false} FlushFlags(s: State, x: Endpoint, e: Endpoint)
    requires Flushable(s.eps, x) && e in s.eps
    ensures SameFlags(Flush(s, x).eps[e], s.eps[e]) && Flush(s, x).order == s.order
    decreases |s.eps[x].queue|
  {
    if s.eps[x].queue != [] {
      assert Placed(s.eps, x, s.eps[x].queue[0]);
      DisposeFlags(s.(eps := Pop(s.eps, x)), s.eps[x].queue[0], Fail, e);
      FlushFlags(FlushFirst(s, x), x, e);
    }
  }

  lemma DisposeFlags(s: State, m: Mail, code: Verdict, e: Endpoint)
    requires Loose(s.eps, m) && e in s.eps
    ensures SameFlags(Dispose(s, m, code).eps[e], s.eps[e]) && Dispose(s, m, code).order == s.order
  {
    if m.kind.Request? && m.wack {
      UnmentionQueues(s.eps, m.Turned(code), e);
    } else {
      UnmentionQueues(s.eps, m, e);
    }
  }

  lemma DeliverFlags(s: State, x: Endpoint, v: Verdict, e: Endpoint)
    requires Flushable(s.eps, x) && s.eps[x].queue != []
    ensures Deliver(s, x, v).eps.Keys == s.eps.Keys && Deliver(s, x, v).order == s.order
    ensures e in s.eps ==> SameFlags(Deliver(s, x, v).eps[e], s.eps[e])
  {
    var m, p := s.eps[x].queue[0], s.(eps := Pop(s.eps, x));
    assert Placed(s.eps, x, m);
    if e in s.eps {
      assert SameFlags(p.eps[e], s.eps[e]);
      match v
      case Own => UnmentionQueues(p.eps, m, e);
      case Pause =>
      case Yield =>
      case _ => DisposeFlags(p, m, v, e);
    }
  }

  // ---- draining ----

  lemma DisposeWeight(s: State, m: Mail, code: Verdict)
    requires Sound(s, [m]) && Loose(s.eps, m)
    ensures var t := Dispose(s, m, code);
      Listed(t) && Weight(AllMail(t.order, t.eps)) < Weight(AllMail(s.order, s.eps)) + Work(m)
  {
    var t := Dispose(s, m, code);
    if m.kind.Request? && m.wack {
      var r := m.Turned(code);
      TurnSound(s, m, code);
      if s.eps[r.to].receiving {
        SwapWeight(s.order, s.eps, t.eps, r.to);
        WeightConcat(s.eps[r.to].queue, [r]);
        assert [r][1..] == [];
      } else {
        UnmentionBalanced(s, r, t);
      }
    } else {
      UnmentionBalanced(s, m, t);
    }
  }

  /** Handlers that neither send nor pause nor yield: every wake call uses up work, at most two for a request that is
    * owed a reply and one for any other message. */
  lemma DeliverWeight(s: State, e: Endpoint, v: Verdict)
    requires Sound(s, []) && Flushable(s.eps, e) && s.eps[e].queue != [] && !v.Pause? && !v.Yield?
    ensures var t := Deliver(s, e, v); Listed(t) && Weight(AllMail(t.order, t.eps)) < Weight(AllMail(s.order, s.eps))
  {
    var m, p := s.eps[e].queue[0], s.(eps := Pop(s.eps, e));
    assert Placed(s.eps, e, m);
    PopSound(s, e);
    SwapWeight(s.order, s.eps, p.eps, e);
    if v.Own? {
      UnmentionBalanced(p, m, Deliver(s, e, v));
    } else {
      DisposeWeight(p, m, v);
    }
  }

  predicate Draining(st: Step) {
    st.Woken? && !st.v.Pause? && !st.v.Yield?
  }

  /** So a run of nothing but such calls is no longer than the work that was queued when it began. */
  lemma {:induction false} DrainTerminates(s: State, run: seq<Step>, t: State)
    requires Sound(s, []) && Leads(s, run, t) && (forall st :: st in run ==> Draining(st))
    ensures Listed(t) && |run| + Weight(AllMail(t.order, t.eps)) <= Weight(AllMail(s.order, s.eps))
    decreases |run|
  {
    if run != [] {
      StepSound(s, run[0]);
      assert Draining(run[0]);
      PlacedLoose(s, run[0].e);
      DeliverWeight(s, run[0].e, run[0].v);
      DrainTerminates(Apply(s, run[0]), run[1..], t);
    }
  }
}
