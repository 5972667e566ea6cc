/** The calls of the endpoint layer as state functions, and the proof that each keeps the invariant. */
module EndpointCalls {
  import opened EndpointState
  import opened EndpointSteps

  // ---- send_message_endpoint_katcp ----

  /** What a caller has to grant: live endpoints, and a sender for a message that wants or is a reply. */
  predicate Sendable(s: State, m: Mail) {
    && m.to != null && m.to in s.eps && (m.from == null || m.from in s.eps)
    && (m.wack || m.kind.Reply? ==> m.from != null)
  }

  predicate Refused(s: State, m: Mail)
    requires Sendable(s, m)
  {
    m.from == m.to || (m.from != null && !s.eps[m.from].sending) || !s.eps[m.to].receiving
  }

  function Send(s: State, m: Mail): State
    requires Sendable(s, m)
  {
    if Refused(s, m) then s
    else
      var books := if m.Owed() then s.books.(accepted := s.books.accepted + multiset{m}) else s.books;
      s.(eps := Append(Mention(s.eps, m), m), books := books)
  }

  // ---- destroy_message_katcp, vturnaround_endpoint_katcp ----

  function Destroy(s: State, m: Mail): State
    requires Loose(s.eps, m)
  {
    s.(eps := Unmention(s.eps, m))
  }

  function Turnaround(s: State, m: Mail, code: Verdict): State
    requires Loose(s.eps, m)
  {
    if !m.wack then Destroy(s, m)
    else
      var r := m.Turned(code);
      if s.eps[r.to].receiving then
        s.(eps := Append(s.eps, r), books := s.books.(answered := s.books.answered + multiset{m}))
      else
        s.(eps := Unmention(s.eps, r), books := s.books.(stranded := s.books.stranded + multiset{m}))
  }

  function Dispose(s: State, m: Mail, code: Verdict): (t: State)
    requires Loose(s.eps, m)
    ensures t.eps.Keys == s.eps.Keys
  {
    if m.kind.Request? then Turnaround(s, m, code) else Destroy(s, m)
  }

  // ---- flush_endpoint_katcp, release_endpoint_katcp ----

  predicate Flushable(eps: map<Endpoint, Ep>, e: Endpoint) {
    e in eps && forall m :: m in eps[e].queue ==> Placed(eps, e, m)
  }

  /** Take the head off the queue of e and dispose of it as failed. A reply never goes back into the queue that is
    * being emptied, as no endpoint sends to itself. */
  function FlushFirst(s: State, e: Endpoint): (t: State)
    requires Flushable(s.eps, e) && s.eps[e].queue != []
    ensures t.eps.Keys == s.eps.Keys && t.eps[e].queue == s.eps[e].queue[1..] && Flushable(t.eps, e)
  {
    var p, m := Pop(s.eps, e), s.eps[e].queue[0];
    assert Placed(s.eps, e, m);
    DisposeElsewhere(s.(eps := p), m, e);
    var t := Dispose(s.(eps := p), m, Fail);
    assert forall x :: x in t.eps[e].queue ==> Placed(s.eps, e, x);
    t
  }

  lemma DisposeElsewhere(s: State, m: Mail, e: Endpoint)
    requires Loose(s.eps, m) && e in s.eps && m.from != e
    ensures Dispose(s, m, Fail).eps[e].queue == s.eps[e].queue
  {
    if m.kind.Request? && m.wack {
      UnmentionQueues(s.eps, m.Turned(Fail), e);
    } else {
      UnmentionQueues(s.eps, m, e);
    }
  }

  lemma UnmentionQueues(eps: map<Endpoint, Ep>, m: Mail, e: Endpoint)
    requires Loose(eps, m) && e in eps
    ensures Unmention(eps, m)[e] == eps[e].(refs := Unmention(eps, m)[e].refs)
  {
    var mid := Forgotten(eps, m.from);
    assert mid[e] == eps[e].(refs := mid[e].refs);
  }

  function Flush(s: State, e: Endpoint): (t: State)
    requires Flushable(s.eps, e)
    ensures t.eps.Keys == s.eps.Keys && t.eps[e].queue == []
    decreases |s.eps[e].queue|
  {
    if s.eps[e].queue == [] then s else Flush(FlushFirst(s, e), e)
  }

  function Release(s: State, e: Endpoint): State
    requires Flushable(s.eps, e)
  {
    if !s.eps[e].up then s
    else
      var t := Flush(s.(eps := s.eps[e := s.eps[e].(wake := false)]), e);
      t.(eps := t.eps[e := t.eps[e].(up := false, receiving := false, sending := false)])
  }

  // ---- the verdict of a wake callback, and the collection of gone endpoints, in run_endpoints_katcp ----

  function Deliver(s: State, e: Endpoint, v: Verdict): State
    requires Flushable(s.eps, e) && s.eps[e].queue != []
  {
    var m := s.eps[e].queue[0];
    assert Placed(s.eps, e, m);
    var t := s.(eps := Pop(s.eps, e));
    match v
    case Own =>
      Destroy(t, m).(books := if m.Owed() then s.books.(owned := s.books.owned + multiset{m}) else s.books)
    case Pause => s
    case Yield => s
    case _ => Dispose(t, m, v)
  }

  lemma DeliverOwn(s: State, e: Endpoint)
    requires Flushable(s.eps, e) && s.eps[e].queue != []
    ensures var m, p := s.eps[e].queue[0], s.(eps := Pop(s.eps, e));
      Loose(p.eps, m) && Deliver(s, e, Own) ==
        Destroy(p, m).(books := if m.Owed() then p.books.(owned := p.books.owned + multiset{m}) else p.books)
  {
    assert Placed(s.eps, e, s.eps[e].queue[0]);
  }

  lemma DeliverOther(s: State, e: Endpoint, v: Verdict)
    requires Flushable(s.eps, e) && s.eps[e].queue != [] && !v.Own?
    ensures var m, p := s.eps[e].queue[0], s.(eps := Pop(s.eps, e));
      Loose(p.eps, m) && Deliver(s, e, v) == if v.Pause? || v.Yield? then s else Dispose(p, m, v)
  {
    assert Placed(s.eps, e, s.eps[e].queue[0]);
  }

  predicate Collectable(s: State, e: Endpoint) {
    e in s.eps && !s.eps[e].up && s.eps[e].refs <= 0
  }

  function Without(order: seq<Endpoint>, e: Endpoint): seq<Endpoint> {
    if order == [] then [] else (if order[0] == e then [] else [order[0]]) + Without(order[1..], e)
  }

  function Collect(s: State, e: Endpoint): State {
    s.(order := Without(s.order, e), eps := s.eps - {e})
  }

  function Create(s: State, e: Endpoint, wake: bool, fast: bool): State {
    s.(order := [e] + s.order, eps := s.eps[e := Ep(true, wake, true, wake, fast, 0, [])])
  }

  // ---- the invariant ----

  lemma PlacedLoose(s: State, e: Endpoint)
    requires Sound(s, []) && e in s.eps
    ensures Flushable(s.eps, e) && forall m :: m in s.eps[e].queue ==> Loose(s.eps, m)
  {
    forall m | m in s.eps[e].queue
      ensures Placed(s.eps, e, m)
    {
    }
  }

  lemma SendSound(s: State, m: Mail)
    requires Sound(s, []) && Sendable(s, m)
    ensures Sound(Send(s, m), [])
  {
    if !Refused(s, m) {
      MentionSound(s, m);
      MentionAdjusted(s.eps, m);
      AppendSound(s.(eps := Mention(s.eps, m)), m);
      assert Sound(s.(eps := Append(Mention(s.eps, m), m)), []);
    }
  }

  lemma DisposeSound(s: State, m: Mail, code: Verdict)
    requires Sound(s, [m]) && Loose(s.eps, m)
    ensures Sound(Dispose(s, m, code), [])
  {
    if m.kind.Request? && m.wack {
      var r := m.Turned(code);
      TurnSound(s, m, code);
      if s.eps[r.to].receiving {
        AppendSound(s, r);
        assert Sound(s.(eps := Append(s.eps, r)), []);
      } else {
        UnmentionSound(s, r);
        assert Sound(s.(eps := Unmention(s.eps, r)), []);
      }
    } else {
      UnmentionSound(s, m);
    }
  }

  lemma {:induction false} FlushSound(s: State, e: Endpoint)
    requires Sound(s, []) && Flushable(s.eps, e)
    ensures Sound(Flush(s, e), [])
    decreases |s.eps[e].queue|
  {
    if s.eps[e].queue != [] {
      FlushFirstSound(s, e);
      FlushSound(FlushFirst(s, e), e);
    }
  }

  lemma FlushFirstSound(s: State, e: Endpoint)
    requires Sound(s, []) && Flushable(s.eps, e) && s.eps[e].queue != []
    ensures Sound(FlushFirst(s, e), [])
  {
    PopSound(s, e);
    assert Placed(s.eps, e, s.eps[e].queue[0]);
    DisposeSound(s.(eps := Pop(s.eps, e)), s.eps[e].queue[0], Fail);
  }

  /** Changing the flags of one endpoint keeps the invariant as long as a gone one has an empty queue. */
  lemma FlagsSound(s: State, e: Endpoint, x: Ep)
    requires Sound(s, []) && e in s.eps && x.refs == s.eps[e].refs && x.queue == s.eps[e].queue && Settled(x)
    ensures Sound(s.(eps := s.eps[e := x]), [])
  {
    var eps := s.eps[e := x];
    SameMail(s.order, s.eps, eps);
    forall y, m | y in eps && m in eps[y].queue
      ensures Placed(eps, y, m)
    {
      assert Placed(s.eps, y, m);
    }
  }

  lemma ReleaseSound(s: State, e: Endpoint)
    requires Sound(s, []) && Flushable(s.eps, e)
    ensures Sound(Release(s, e), [])
  {
    if s.eps[e].up {
      var x := s.eps[e].(wake := false);
      FlagsSound(s, e, x);
      var t := s.(eps := s.eps[e := x]);
      FlushSound(t, e);
      var u := Flush(t, e);
      FlagsSound(u, e, u.eps[e].(up := false, receiving := false, sending := false));
    }
  }

  lemma DeliverSound(s: State, e: Endpoint, v: Verdict)
    requires Sound(s, []) && Flushable(s.eps, e) && s.eps[e].queue != []
    ensures Sound(Deliver(s, e, v), [])
  {
    var m, t := s.eps[e].queue[0], s.(eps := Pop(s.eps, e));
    assert Placed(s.eps, e, m);
    PopSound(s, e);
    if v.Own? {
      UnmentionSound(t, m);
      assert Sound(t.(eps := Unmention(t.eps, m)), []);
    } else if !v.Pause? && !v.Yield? {
      DisposeSound(t, m, v);
    }
  }

  lemma HoldSound(s: State, e: Endpoint)
    requires Sound(s, []) && e in s.eps
    ensures Sound(s.(eps := Referenced(s.eps, e), holders := s.holders + multiset{e}), [])
  {
    var eps := Referenced(s.eps, e);
    SameMail(s.order, s.eps, eps);
    forall y, m | y in eps && m in eps[y].queue
      ensures Placed(eps, y, m)
    {
      assert Placed(s.eps, y, m);
    }
  }

  lemma DropSound(s: State, e: Endpoint)
    requires Sound(s, []) && e in s.holders
    ensures e in s.eps && s.eps[e].refs > 0
    ensures Sound(s.(eps := Forgotten(s.eps, e), holders := s.holders - multiset{e}), [])
  {
    var eps := Forgotten(s.eps, e);
    SameMail(s.order, s.eps, eps);
    forall y, m | y in eps && m in eps[y].queue
      ensures Placed(eps, y, m)
    {
      assert Placed(s.eps, y, m);
    }
  }

  /** A new endpoint has no mail and nobody can mention it yet. */
  lemma CreateSound(s: State, e: Endpoint, wake: bool, fast: bool)
    requires Sound(s, []) && e !in s.eps
    ensures Sound(Create(s, e, wake, fast), [])
  {
    var t := Create(s, e, wake, fast);
    CreateMail(s, e, wake, fast);
    Unmentioned(s, e);
    assert Listed(t) by {
      CreateListed(s, e, wake, fast);
    }
    assert Routed(t.eps) by {
      forall y, m | y in t.eps && m in t.eps[y].queue
        ensures Placed(t.eps, y, m)
      {
        assert Placed(s.eps, y, m);
      }
    }
  }

  lemma CreateListed(s: State, e: Endpoint, wake: bool, fast: bool)
    requires Listed(s) && e !in s.eps
    ensures Listed(Create(s, e, wake, fast))
  {
    var t := Create(s, e, wake, fast);
    assert forall i :: 0 < i < |t.order| ==> t.order[i] == s.order[i - 1];
  }

  lemma CreateMail(s: State, e: Endpoint, wake: bool, fast: bool)
    requires (forall x :: x in s.order ==> x in s.eps) && e !in s.eps
    ensures var t := Create(s, e, wake, fast); AllMail(t.order, t.eps) == AllMail(s.order, s.eps)
  {
    var t := Create(s, e, wake, fast);
    SameMail(s.order, s.eps, t.eps);
    assert t.order[1..] == s.order;
    assert [] + AllMail(s.order, s.eps) == AllMail(s.order, s.eps);
  }

  /** No queued message mentions an endpoint that is not in the list. */
  lemma Unmentioned(s: State, e: Endpoint)
    requires Sound(s, []) && e !in s.eps
    ensures Mentions(AllMail(s.order, s.eps), e) == 0 && s.holders[e] == 0
  {
    forall x, m | x in s.eps && m in s.eps[x].queue
      ensures Names(m, e) == 0
    {
      assert Placed(s.eps, x, m);
    }
    NoMentions(s.order, s.eps, e);
  }

  lemma {:induction false} NoMentions(order: seq<Endpoint>, eps: map<Endpoint, Ep>, e: Endpoint)
    requires forall x :: x in order ==> x in eps
    requires forall x, m :: x in order && m in eps[x].queue ==> Names(m, e) == 0
    ensures Mentions(AllMail(order, eps), e) == 0
  {
    if order != [] {
      NoMentions(order[1..], eps, e);
      NobodyNames(eps[order[0]].queue, e);
      MentionsConcat(eps[order[0]].queue, AllMail(order[1..], eps), e);
    }
  }

  lemma {:induction false} NobodyNames(q: seq<Mail>, e: Endpoint)
    requires forall m :: m in q ==> Names(m, e) == 0
    ensures Mentions(q, e) == 0
  {
    if q != [] {
      NobodyNames(q[1..], e);
    }
  }

  lemma {:induction false} WithoutKeeps(order: seq<Endpoint>, e: Endpoint)
    requires NoDup(order)
    ensures NoDup(Without(order, e)) && e !in Without(order, e)
    ensures forall x :: x in Without(order, e) ==> x in order
    ensures forall x :: x in order && x != e ==> x in Without(order, e)
  {
    if order != [] {
      var rest := Without(order[1..], e);
      WithoutKeeps(order[1..], e);
      assert order[0] !in order[1..] && order[0] !in rest;
      assert forall x :: x in order ==> x == order[0] || x in order[1..];
    }
  }

  lemma {:induction false} WithoutAbsent(order: seq<Endpoint>, e: Endpoint)
    requires e !in order
    ensures Without(order, e) == order
  {
    if order != [] {
      WithoutAbsent(order[1..], e);
    }
  }

  /** In a list without duplicates, leaving out one endpoint closes the gap at its place. */
  lemma {:induction false} WithoutPlace(order: seq<Endpoint>, i: nat)
    requires NoDup(order) && i < |order|
    ensures Without(order, order[i]) == order[..i] + order[i + 1..]
  {
    if i == 0 {
      WithoutAbsent(order[1..], order[0]);
    } else {
      WithoutPlace(order[1..], i - 1);
      assert order[..i] == [order[0]] + order[1..][..i - 1];
    }
  }

  lemma {:induction false} WithoutMail(order: seq<Endpoint>, eps: map<Endpoint, Ep>, e: Endpoint)
    requires e in eps && eps[e].queue == []
    requires (forall x :: x in order ==> x in eps) && (forall x :: x in Without(order, e) ==> x in eps - {e})
    ensures AllMail(Without(order, e), eps - {e}) == AllMail(order, eps)
  {
    if order != [] {
      var rest := Without(order[1..], e);
      assert forall x :: x in rest ==> x in Without(order, e);
      WithoutMail(order[1..], eps, e);
      if order[0] == e {
        assert Without(order, e) == rest && eps[e].queue + AllMail(order[1..], eps) == AllMail(order[1..], eps);
      } else {
        assert Without(order, e)[1..] == rest;
      }
    }
  }

  /** What makes collection safe: nothing in the system mentions the endpoint that is freed. */
  lemma CollectSound(s: State, e: Endpoint)
    requires Sound(s, []) && Collectable(s, e)
    ensures s.holders[e] == 0 && forall x, m :: x in s.eps && m in s.eps[x].queue ==> Names(m, e) == 0
    ensures Sound(Collect(s, e), [])
  {
    forall x, m | x in s.eps && m in s.eps[x].queue
      ensures Names(m, e) == 0
    {
      if Names(m, e) > 0 {
        QueuedCounted(s.order, s.eps, x, m, e);
      }
    }
    var t := Collect(s, e);
    WithoutKeeps(s.order, e);
    WithoutMail(s.order, s.eps, e);
    forall x, m | x in t.eps && m in t.eps[x].queue
      ensures Placed(t.eps, x, m)
    {
      assert Placed(s.eps, x, m) && Names(m, e) == 0;
    }
  }
}
