/** The invariant of the endpoint layer, and the moves of one message or one reference that every call is made of. */
module EndpointSteps {
  import opened EndpointState

  // ---- invariant ----

  /** The one list of endpoints holds each endpoint once. */
  ghost predicate Listed(s: State) {
    && NoDup(s.order)
    && (forall e :: e in s.order ==> e in s.eps)
    && (forall e :: e in s.eps ==> e in s.order)
    && (forall e :: e in s.holders ==> e in s.eps)
  }

  /** A GONE endpoint neither sends nor receives and its queue is empty. */
  predicate Settled(x: Ep) {
    !x.up ==> !x.receiving && !x.sending && x.queue == []
  }

  /** A message in the queue of e goes to e, from a live endpoint other than e if it has a sender at all. */
  predicate Placed(eps: map<Endpoint, Ep>, e: Endpoint, m: Mail) {
    m.to == e && m.from != e && (m.from == null || m.from in eps) && (m.wack ==> m.from != null)
  }

  ghost predicate Routed(eps: map<Endpoint, Ep>) {
    forall e, m :: e in eps && m in eps[e].queue ==> Placed(eps, e, m)
  }

  predicate Loose(eps: map<Endpoint, Ep>, m: Mail) {
    m.to != null && m.to in eps && Placed(eps, m.to, m)
  }

  /** Each count of references is the number of mentions in queued and loose messages plus the outside holders. */
  ghost predicate Counted(s: State, loose: seq<Mail>)
    requires forall e :: e in s.order ==> e in s.eps
  {
    forall e :: e in s.eps ==>
      s.eps[e].refs == s.holders[e] + Mentions(AllMail(s.order, s.eps), e) + Mentions(loose, e)
  }

  /** The invariant, where `loose` lists messages that a call has taken off the queues. */
  ghost predicate Sound(s: State, loose: seq<Mail>) {
    && Listed(s)
    && (forall e :: e in s.eps ==> Settled(s.eps[e]))
    && Routed(s.eps)
    && (forall m :: m in loose ==> Loose(s.eps, m))
    && Counted(s, loose)
  }

  lemma SoundListed(s: State, loose: seq<Mail>)
    requires Sound(s, loose)
    ensures Listed(s)
  {
  }

  /** Every request accepted with a promise of a reply is still waiting, answered, stranded because its sender no
    * longer receives, or taken over by its handler. */
  ghost predicate Balanced(s: State, loose: seq<Mail>)
    requires forall e :: e in s.order ==> e in s.eps
  {
    s.books.accepted == Owed(AllMail(s.order, s.eps)) + Owed(loose) + s.books.answered + s.books.stranded
      + s.books.owned
  }

  // ---- reference_endpoint_katcp, forget_endpoint_katcp, create and destroy of messages ----

  function Referenced(eps: map<Endpoint, Ep>, e: Endpoint?): (r: map<Endpoint, Ep>)
    requires e == null || e in eps
    ensures r.Keys == eps.Keys
  {
    if e == null then eps else eps[e := eps[e].(refs := eps[e].refs + 1)]
  }

  function Forgotten(eps: map<Endpoint, Ep>, e: Endpoint?): (r: map<Endpoint, Ep>)
    requires e == null || e in eps
    ensures r.Keys == eps.Keys
  {
    if e == null || eps[e].refs <= 0 then eps else eps[e := eps[e].(refs := eps[e].refs - 1)]
  }

  function Mention(eps: map<Endpoint, Ep>, m: Mail): (r: map<Endpoint, Ep>)
    requires Loose(eps, m)
    ensures r.Keys == eps.Keys
  {
    Referenced(Referenced(eps, m.from), m.to)
  }

  function Unmention(eps: map<Endpoint, Ep>, m: Mail): (r: map<Endpoint, Ep>)
    requires Loose(eps, m)
    ensures r.Keys == eps.Keys
  {
    Forgotten(Forgotten(eps, m.from), m.to)
  }

  function Append(eps: map<Endpoint, Ep>, m: Mail): (r: map<Endpoint, Ep>)
    requires Loose(eps, m)
    ensures r.Keys == eps.Keys
  {
    eps[m.to := eps[m.to].(queue := eps[m.to].queue + [m])]
  }

  function Pop(eps: map<Endpoint, Ep>, e: Endpoint): (r: map<Endpoint, Ep>)
    requires e in eps && eps[e].queue != []
    ensures r.Keys == eps.Keys
  {
    eps[e := eps[e].(queue := eps[e].queue[1..])]
  }

  lemma MentionsOne(m: Mail, e: Endpoint)
    ensures Mentions([m], e) == Names(m, e)
  {
    assert [m][1..] == [];
  }

  /** eps' differs from eps in the reference counts alone, by d for every mention in m. */
  ghost predicate Adjusted(eps: map<Endpoint, Ep>, eps': map<Endpoint, Ep>, m: Mail, d: int) {
    && eps'.Keys == eps.Keys
    && (forall e :: e in eps ==> eps'[e] == eps[e].(refs := eps[e].refs + d * Names(m, e)))
  }

  lemma AdjustedStructure(s: State, eps: map<Endpoint, Ep>, m: Mail, d: int)
    requires Listed(s) && Routed(s.eps) && (forall e :: e in s.eps ==> Settled(s.eps[e]))
    requires Loose(s.eps, m) && Adjusted(s.eps, eps, m, d)
    ensures Listed(s.(eps := eps)) && Routed(eps) && (forall e :: e in eps ==> Settled(eps[e])) && Loose(eps, m)
    ensures AllMail(s.order, eps) == AllMail(s.order, s.eps)
  {
    SameMail(s.order, s.eps, eps);
    forall e, x | e in eps && x in eps[e].queue
      ensures Placed(eps, e, x)
    {
      assert Placed(s.eps, e, x);
    }
  }

  lemma MentionAdjusted(eps: map<Endpoint, Ep>, m: Mail)
    requires Loose(eps, m)
    ensures Adjusted(eps, Mention(eps, m), m, 1)
  {
    var mid, eps' := Referenced(eps, m.from), Mention(eps, m);
    forall e | e in eps
      ensures eps'[e] == eps[e].(refs := eps[e].refs + 1 * Names(m, e))
    {
      assert mid[e].refs == eps[e].refs + if m.from == e then 1 else 0;
    }
  }

  lemma UnmentionAdjusted(eps: map<Endpoint, Ep>, m: Mail)
    requires Loose(eps, m) && eps[m.to].refs > 0 && (m.from != null ==> eps[m.from].refs > 0)
    ensures Adjusted(eps, Unmention(eps, m), m, -1)
  {
    var mid, eps' := Forgotten(eps, m.from), Unmention(eps, m);
    forall e | e in eps
      ensures eps'[e] == eps[e].(refs := eps[e].refs + -1 * Names(m, e))
    {
      assert mid[e].refs == eps[e].refs - if m.from == e then 1 else 0;
    }
  }

  lemma MentionSound(s: State, m: Mail)
    requires Sound(s, []) && Loose(s.eps, m)
    ensures Sound(s.(eps := Mention(s.eps, m)), [m])
  {
    var eps := Mention(s.eps, m);
    MentionAdjusted(s.eps, m);
    AdjustedStructure(s, eps, m, 1);
    forall e | e in eps
      ensures eps[e].refs == s.holders[e] + Mentions(AllMail(s.order, eps), e) + Mentions([m], e)
    {
      MentionsOne(m, e);
    }
  }

  /** Forgetting the two mentions of a counted message never meets a count of zero. */
  lemma LooseReferenced(s: State, m: Mail)
    requires Sound(s, [m])
    ensures Loose(s.eps, m) && s.eps[m.to].refs > 0 && (m.from != null ==> s.eps[m.from].refs > 0)
  {
    assert m in [m];
    MentionsOne(m, m.to);
    if m.from != null {
      MentionsOne(m, m.from);
    }
  }

  lemma UnmentionSound(s: State, m: Mail)
    requires Sound(s, [m])
    ensures Sound(s.(eps := Unmention(s.eps, m)), [])
  {
    assert m in [m];
    var eps := Unmention(s.eps, m);
    LooseReferenced(s, m);
    UnmentionAdjusted(s.eps, m);
    AdjustedStructure(s, eps, m, -1);
    forall e | e in eps
      ensures eps[e].refs == s.holders[e] + Mentions(AllMail(s.order, eps), e)
    {
      MentionsOne(m, e);
    }
  }

  /** Replacing the queue of e keeps the structure, as long as the new queue is routed and empty when e is gone. */
  lemma QueueStructure(s: State, e: Endpoint, q: seq<Mail>)
    requires Listed(s) && Routed(s.eps) && (forall x :: x in s.eps ==> Settled(s.eps[x]))
    requires e in s.eps && (s.eps[e].up || q == []) && (forall m :: m in q ==> Placed(s.eps, e, m))
    ensures var eps := s.eps[e := s.eps[e].(queue := q)];
      Listed(s.(eps := eps)) && Routed(eps) && (forall x :: x in eps ==> Settled(eps[x]))
  {
    var eps := s.eps[e := s.eps[e].(queue := q)];
    forall x, m | x in eps && m in eps[x].queue
      ensures Placed(eps, x, m)
    {
      assert Placed(s.eps, x, m);
    }
  }

  lemma AppendSound(s: State, m: Mail)
    requires Sound(s, [m]) && s.eps[m.to].up
    ensures Sound(s.(eps := Append(s.eps, m)), [])
  {
    assert m in [m];
    var eps := Append(s.eps, m);
    QueueStructure(s, m.to, s.eps[m.to].queue + [m]);
    forall e | e in eps
      ensures eps[e].refs == s.holders[e] + Mentions(AllMail(s.order, eps), e)
    {
      SwapMentions(s.order, s.eps, eps, m.to, e);
      MentionsConcat(s.eps[m.to].queue, [m], e);
    }
  }

  lemma PopSound(s: State, e: Endpoint)
    requires Sound(s, []) && e in s.eps && s.eps[e].queue != []
    ensures Sound(s.(eps := Pop(s.eps, e)), [s.eps[e].queue[0]])
  {
    var eps, m := Pop(s.eps, e), s.eps[e].queue[0];
    assert m in s.eps[e].queue;
    QueueStructure(s, e, s.eps[e].queue[1..]);
    assert Placed(s.eps, e, m);
    forall x | x in eps
      ensures eps[x].refs == s.holders[x] + Mentions(AllMail(s.order, eps), x) + Mentions([m], x)
    {
      SwapMentions(s.order, s.eps, eps, e, x);
      MentionsOne(m, x);
    }
  }

  lemma TurnSound(s: State, m: Mail, code: Verdict)
    requires Sound(s, [m]) && m.wack
    ensures Sound(s, [m.Turned(code)])
  {
    assert m in [m];
    var r := m.Turned(code);
    forall e | e in s.eps
      ensures Mentions([m], e) == Mentions([r], e)
    {
      MentionsOne(m, e);
      MentionsOne(r, e);
    }
  }
}
