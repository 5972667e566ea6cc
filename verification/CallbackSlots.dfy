/** The slots in which a connection waits for replies: they hold counted references to endpoints and give each back. */
module CallbackSlots {
  import opened Options
  import opened EndpointState
  import opened EndpointSteps
  import opened EndpointCalls
  import opened EndpointLayer

  const SIZE_REPLY: nat := 4

  /** A response handler; one whose callback is not set is free. `initial` is the request to turn around. */
  datatype Slot = Slot(callback: bool, issuer: Endpoint?, recipient: Endpoint?, initial: Option<string>)

  const FREE := Slot(false, null, null, None)

  /** A slot without a callback holds nothing. */
  predicate Tidy(slots: seq<Slot>) {
    forall s :: s in slots && !s.callback ==> s == FREE
  }

  function One(e: Endpoint?): multiset<Endpoint> {
    if e == null then multiset{} else multiset{e}
  }

  function Referred(slots: seq<Slot>): multiset<Endpoint> {
    if slots == [] then multiset{} else One(slots[0].issuer) + One(slots[0].recipient) + Referred(slots[1..])
  }

  /** The references held are those of others and those in the slots. */
  predicate Accounts(held: multiset<Endpoint>, others: multiset<Endpoint>, slots: seq<Slot>) {
    held == others + Referred(slots)
  }

  lemma {:induction false} ReferredMove(slots: seq<Slot>, i: nat, x: Slot)
    requires i < |slots|
    ensures Referred(slots[i := x]) + (One(slots[i].issuer) + One(slots[i].recipient))
      == Referred(slots) + (One(x.issuer) + One(x.recipient))
  {
    if i == 0 {
      assert slots[0 := x][1..] == slots[1..];
    } else {
      ReferredMove(slots[1..], i - 1, x);
      assert slots[i := x][1..] == slots[1..][i - 1 := x];
      Exchange(Referred(slots[1..][i - 1 := x]), One(slots[i].issuer) + One(slots[i].recipient), Referred(slots[1..]),
        One(x.issuer) + One(x.recipient), One(slots[0].issuer) + One(slots[0].recipient));
    }
  }

  lemma Exchange(a: multiset<Endpoint>, p: multiset<Endpoint>, b: multiset<Endpoint>, q: multiset<Endpoint>,
                 c: multiset<Endpoint>)
    requires a + p == b + q
    ensures c + a + p == c + b + q
  {
    assert c + a + p == c + (a + p) && c + b + q == c + (b + q);
  }

  ghost function OneOf(e: Endpoint?): set<Endpoint> {
    if e == null then {} else {e}
  }

  lemma {:induction false} SlotReferred(slots: seq<Slot>, i: nat, e: Endpoint)
    requires i < |slots| && (slots[i].issuer == e || slots[i].recipient == e)
    ensures e in Referred(slots)
  {
    if i > 0 {
      SlotReferred(slots[1..], i - 1, e);
    }
  }

  lemma {:induction false} NothingHeld(slots: seq<Slot>)
    requires forall s :: s in slots ==> s == FREE
    ensures Referred(slots) == multiset{}
  {
    if slots != [] {
      assert slots[0] in slots;
      assert forall s :: s in slots[1..] ==> s in slots;
      NothingHeld(slots[1..]);
    }
  }

  ghost predicate TookFree(before: seq<Slot>, after: seq<Slot>, x: Slot) {
    exists i :: 0 <= i < |before| && before[i] == FREE && FREE !in before[..i] && after == before[i := x]
  }

  lemma TakenBack(others: multiset<Endpoint>, before: multiset<Endpoint>, after: multiset<Endpoint>,
                  a: multiset<Endpoint>, b: multiset<Endpoint>)
    requires after + (a + b) == before + (multiset{} + multiset{})
    ensures a + b <= others + before && others + before - a - b == others + after
  {
    assert before == after + (a + b);
  }

  lemma PutIn(others: multiset<Endpoint>, before: multiset<Endpoint>, after: multiset<Endpoint>,
              a: multiset<Endpoint>, b: multiset<Endpoint>)
    requires after + (multiset{} + multiset{}) == before + (a + b)
    ensures others + before + a + b == others + after
  {
    assert after == before + (a + b);
  }

  lemma SendKeeps(s: State, m: Mail)
    requires Sendable(s, m)
    ensures Send(s, m).order == s.order && Send(s, m).holders == s.holders && m.to in Send(s, m).eps
    ensures !Refused(s, m) ==> Send(s, m).eps[m.to].queue == s.eps[m.to].queue + [m]
  {
    if !Refused(s, m) {
      MentionAdjusted(s.eps, m);
    }
  }

  /** katcp_flat with its reply slots, over the endpoint layer. */
  class Waiting {
    const shared: Shared
    const peer: Endpoint
    var slots: seq<Slot>
    ghost var others: multiset<Endpoint>

    constructor (shared: Shared, peer: Endpoint)
      requires shared.Valid()
      ensures this.shared == shared && this.peer == peer && Valid() && others == shared.holders
      ensures slots == seq(SIZE_REPLY, _ => FREE)
    {
      this.shared, this.peer := shared, peer;
      slots, others := seq(SIZE_REPLY, _ => FREE), shared.holders;
      new;
      NothingHeld(slots);
    }

    /** The references that callers of the layer hold are those in the slots and those of others. */
    ghost predicate Valid()
      reads this, shared, shared.endpoints, shared.mail
    {
      && shared.Valid() && |slots| == SIZE_REPLY
      && Accounts(shared.holders, others, slots) && Tidy(slots)
    }

    lemma Opened()
      requires Valid()
      ensures shared.Valid() && |slots| == SIZE_REPLY && Accounts(shared.holders, others, slots) && Tidy(slots)
    {
    }

    lemma Closed()
      requires shared.Valid() && |slots| == SIZE_REPLY && Accounts(shared.holders, others, slots) && Tidy(slots)
      ensures Valid()
    {
    }

    /** Every endpoint in a slot is alive: it cannot be collected while the slot refers to it. */
    lemma SlotAlive(i: nat, e: Endpoint)
      requires Valid() && i < |slots| && (slots[i].issuer == e || slots[i].recipient == e)
      ensures e in shared.holders && e in shared.endpoints && shared.View().eps[e].refs > 0
    {
      SlotReferred(slots, i, e);
      assert e in shared.View().holders;
    }

    /** A reference for a slot. */
    method Keep(e: Endpoint?)
      requires shared.Valid() && (e == null || e in shared.endpoints)
      modifies shared`holders, shared.endpoints`refcount
      ensures shared.Valid() && shared.holders == old(shared.holders) + One(e)
    {
      if e != null {
        shared.Hold(e);
      }
    }

    method GiveBack(e: Endpoint?)
      requires shared.Valid() && (e == null || (e in shared.holders && e in shared.endpoints))
      modifies shared`holders, shared.endpoints`refcount
      ensures shared.Valid() && shared.holders == old(shared.holders) - One(e)
    {
      if e != null {
        shared.Drop(e);
      }
    }

    method KeepBoth(a: Endpoint?, b: Endpoint?)
      requires shared.Valid() && (a == null || a in shared.endpoints) && (b == null || b in shared.endpoints)
      modifies shared`holders, shared.endpoints`refcount
      ensures shared.Valid() && shared.holders == old(shared.holders) + One(a) + One(b)
    {
      hide Sound;
      Keep(a);
      Keep(b);
    }

    method GiveBackBoth(a: Endpoint?, b: Endpoint?)
      requires shared.Valid() && One(a) + One(b) <= shared.holders
      modifies shared`holders, shared.endpoints`refcount
      ensures shared.Valid() && shared.holders == old(shared.holders) - One(a) - One(b)
    {
      hide Sound, Shared.Valid;
      StillHeld(a);
      LessOne(shared.holders, a, b);
      GiveBack(a);
      StillHeld(b);
      GiveBack(b);
    }

    lemma LessOne(held: multiset<Endpoint>, a: Endpoint?, b: Endpoint?)
      requires One(a) + One(b) <= held
      ensures One(a) <= held && One(b) <= held - One(a)
    {
    }

    lemma StillHeld(e: Endpoint?)
      requires shared.Valid() && One(e) <= shared.holders
      ensures e != null ==> e in shared.holders && e in shared.endpoints
    {
      assert e != null ==> e in One(e) && e in shared.View().holders;
    }

    /** The tail of callback_flat_katcp: the first free slot takes the callback, if there is one. */
    method Register(issuer: Endpoint?, recipient: Endpoint?, initial: Option<string>) returns (result: int)
      requires Valid() && (issuer == null || issuer in shared.endpoints)
        && (recipient == null || recipient in shared.endpoints)
      modifies this`slots, shared`holders, shared.endpoints`refcount
      ensures Valid() && result == if FREE in old(slots) then 0 else -1
      ensures result == 0 ==> shared.holders == old(shared.holders) + One(issuer) + One(recipient)
      ensures result == 0 ==> TookFree(old(slots), slots, Slot(true, issuer, recipient, initial))
      ensures result != 0 ==> slots == old(slots) && shared.holders == old(shared.holders)
    {
      hide Sound, Referred;
      var i := FindFree();
      if i == SIZE_REPLY {
        return -1;
      }
      var handler := Slot(true, issuer, recipient, initial);
      ReferredMove(slots, i, handler);
      PutIn(others, Referred(slots), Referred(slots[i := handler]), One(issuer), One(recipient));
      KeepBoth(issuer, recipient);
      slots := slots[i := handler];
      return 0;
    }

    method FindFree() returns (i: nat)
      requires |slots| == SIZE_REPLY && Tidy(slots)
      ensures i <= SIZE_REPLY && (i < SIZE_REPLY ==> slots[i] == FREE) && (i == SIZE_REPLY <==> FREE !in slots)
      ensures FREE !in slots[..i]
    {
      i := 0;
      while i < SIZE_REPLY && slots[i].callback
        invariant i <= SIZE_REPLY && forall j :: 0 <= j < i ==> slots[j].callback
      {
        i := i + 1;
      }
      assert i < SIZE_REPLY ==> slots[i] in slots;
    }

    /** Forget the endpoints in a slot. */
    method Forget(i: nat)
      requires Valid() && i < |slots|
      modifies shared`holders, shared.endpoints`refcount
      ensures shared.Valid() && Accounts(shared.holders, others, slots[i := FREE])
    {
      hide Sound, Referred;
      var rh := slots[i];
      ReferredMove(slots, i, FREE);
      TakenBack(others, Referred(slots), Referred(slots[i := FREE]), One(rh.issuer), One(rh.recipient));
      GiveBackBoth(rh.issuer, rh.recipient);
    }

    method FreeSlot(i: nat)
      requires shared.Valid() && i < |slots| == SIZE_REPLY && Tidy(slots)
        && Accounts(shared.holders, others, slots[i := FREE])
      modifies this`slots
      ensures Valid() && slots == old(slots)[i := FREE]
    {
      slots := slots[i := FREE];
    }

    /** Forget what a slot holds and free it. */
    method Clear(i: nat)
      requires Valid() && i < |slots|
      modifies this`slots, shared`holders, shared.endpoints`refcount
      ensures Valid() && slots == old(slots)[i := FREE] && shared.endpoints == old(shared.endpoints)
    {
      Opened();
      hide *;
      Forget(i);
      FreeSlot(i);
    }

    /** The reply m has gone to the issuer if that can be sent to, and nowhere otherwise. */
    twostate predicate Replied(issuer: Endpoint?, m: Mail, status: int)
      reads OneOf(issuer), if issuer == null then [] else issuer.queue
    {
      if issuer == null || issuer == peer || !old(peer.state.sending) || !old(issuer.state.receiving) then status == -1
      else status == 0 && Snaps(issuer.queue) == old(Snaps(issuer.queue)) + [m]
    }

    /** A message to a live endpoint, which leaves the list of endpoints and the outside references alone. */
    method SendTo(m: Mail) returns (status: int)
      requires shared.Valid() && Sendable(shared.View(), m) && m.from == peer
      modifies shared`mail, shared`books, shared.endpoints`refcount, shared.endpoints`queue
      ensures shared.Valid() && shared.endpoints == old(shared.endpoints) && shared.holders == old(shared.holders)
      ensures Replied(m.to, m, status)
    {
      SendKeeps(shared.View(), m);
      hide Sound, EndpointCalls.Send;
      ghost var v := shared.View();
      assert v.eps[m.from] == Look(m.from) && v.eps[m.to] == Look(m.to);
      status := shared.Send(m);
      assert shared.View().eps[m.to] == Look(m.to);
    }

    method SendReply(issuer: Endpoint, m: Mail, ghost i: nat) returns (status: int)
      requires Valid() && i < |slots| && slots[i].issuer == issuer && peer in shared.endpoints
      requires m.kind.Reply? && m.from == peer && m.to == issuer && !m.wack
      modifies shared`mail, shared`books, shared.endpoints`refcount, shared.endpoints`queue
      ensures Valid() && shared.endpoints == old(shared.endpoints) && Replied(issuer, m, status)
    {
      SlotAlive(i, issuer);
      assert Sendable(shared.View(), m);
      Opened();
      hide *;
      status := SendTo(m);
      Closed();
    }

    method ReplyAndClear(i: nat, m: Mail) returns (status: int)
      requires Valid() && i < |slots| && peer in shared.endpoints
      requires m.kind.Reply? && m.from == peer && m.to == slots[i].issuer && !m.wack
      modifies this`slots, shared`holders, shared`mail, shared`books, shared.endpoints`refcount, shared.endpoints`queue
      ensures Valid() && shared.endpoints == old(shared.endpoints) && slots == old(slots)[i := FREE]
      ensures Replied(old(slots)[i].issuer, m, status)
    {
      hide Valid, Shared.Valid;
      status := -1;
      if slots[i].issuer != null {
        status := SendReply(slots[i].issuer, m, i);
      }
      Clear(i);
    }

    /** process_outstanding_flat_katcp after the callback has returned: on a reply the request that was kept is
      * answered, and the references are given back once; a callback that pauses or yields keeps its slot. */
    method Process(i: nat, verdict: Verdict, reply: bool) returns (status: int)
      requires Valid() && i < |slots| && slots[i].callback && peer in shared.endpoints
      modifies this`slots, shared`holders, shared`mail, shared`books, shared.endpoints`refcount, shared.endpoints`queue
      ensures Valid() && shared.endpoints == old(shared.endpoints)
      ensures slots == if reply && !verdict.Pause? && !verdict.Yield? then old(slots)[i := FREE] else old(slots)
      ensures verdict.Pause? || verdict.Yield? ==> status == -1
      ensures var rh := old(slots)[i];
        reply && !verdict.Pause? && !verdict.Yield? && !verdict.Own? && rh.initial.Some? ==>
          Replied(rh.issuer, Mail(Reply(verdict), rh.initial.value, peer, rh.issuer, false), status)
      ensures !reply || verdict.Pause? || verdict.Yield? || verdict.Own? || old(slots)[i].initial.None? ==>
        forall e :: e in shared.endpoints ==> e.queue == old(e.queue)
    {
      hide Valid, Shared.Valid;
      status := 0;
      if verdict.Pause? || verdict.Yield? {
        return -1;
      }
      if !reply {
        return;
      }
      var rh := slots[i];
      if !verdict.Own? && rh.initial.Some? {
        status := ReplyAndClear(i, Mail(Reply(verdict), rh.initial.value, peer, rh.issuer, false));
      } else {
        Clear(i);
      }
    }

    /** cancel_flat_katcp: afterwards the slots hold no reference at all. */
    method Cancel()
      requires Valid()
      modifies this`slots, shared`holders, shared.endpoints`refcount
      ensures Valid() && shared.holders == others && forall s :: s in slots ==> s == FREE
    {
      hide Sound, Referred;
      var i := 0;
      while i < SIZE_REPLY
        invariant 0 <= i <= SIZE_REPLY && Valid() && shared.endpoints == old(shared.endpoints)
        invariant forall j :: 0 <= j < i ==> slots[j] == FREE
      {
        Clear(i);
        i := i + 1;
      }
      NothingHeld(slots);
    }
  }
}
