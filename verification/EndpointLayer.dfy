/** The endpoint layer over mutable endpoints and messages. Every method is proved to be one of the state functions. */
module EndpointLayer {
  import opened EndpointState
  import opened EndpointSteps
  import opened EndpointCalls
  import opened EndpointRuns
  import opened EndpointPass

  ghost function Snaps(q: seq<Message>): (r: seq<Mail>)
    reads q
    ensures |r| == |q|
  {
    if q == [] then [] else [Snap(q[0])] + Snaps(q[1..])
  }

  lemma {:induction false} SnapsAppend(q: seq<Message>, m: Message)
    ensures Snaps(q + [m]) == Snaps(q) + [Snap(m)]
  {
    if q == [] {
      assert q + [m] == [m];
    } else {
      SnapsAppend(q[1..], m);
      assert (q + [m])[1..] == q[1..] + [m];
    }
  }

  lemma {:induction false} SnapsAt(q: seq<Message>, i: nat)
    requires i < |q|
    ensures Snaps(q)[i] == Snap(q[i])
  {
    if i > 0 {
      SnapsAt(q[1..], i - 1);
    }
  }

  ghost function Look(e: Endpoint): Ep
    reads e, e.queue
  {
    Ep(e.state.up, e.state.receiving, e.state.sending, e.wake, e.fast, e.refcount, Snaps(e.queue))
  }

  /** The part of katcp_shared that the layer owns, with the references that its callers hold. */
  class Shared {
    var endpoints: seq<Endpoint>
    var holders: multiset<Endpoint>
    ghost var books: Books
    ghost var mail: set<Message>

    constructor ()
      ensures Valid() && View() == Nothing() && fresh(mail)
    {
      endpoints, holders, mail := [], multiset{}, {};
      books := Nothing().books;
    }

    ghost predicate Contained()
      reads this, endpoints
    {
      forall e, m :: e in endpoints && m in e.queue ==> m in mail
    }

    ghost function View(): State
      requires Contained()
      reads this, endpoints, mail
    {
      State(endpoints, map e | e in endpoints :: Look(e), holders, books)
    }

    /** No queue holds a message twice; that no two queues share one follows from where messages are addressed. */
    ghost predicate Distinct()
      reads this, endpoints
    {
      Contained() && forall e :: e in endpoints ==> NoDup(e.queue)
    }

    ghost predicate Valid()
      reads this, endpoints, mail
    {
      Distinct() && Sound(View(), [])
    }

    /** m is in no queue. */
    ghost predicate Unqueued(m: Message)
      reads this, endpoints
    {
      forall e :: e in endpoints ==> m !in e.queue
    }

    // ---- reference_endpoint_katcp, forget_endpoint_katcp ----

    /** Writing the reference count of e changes that count and nothing else of what the layer looks like. */
    method SetCount(e: Endpoint, count: nat)
      requires Contained() && e in endpoints
      modifies e`refcount
      ensures Contained() && View() == old(View()).(eps := old(View()).eps[e := old(Look(e)).(refs := count)])
    {
      hide Snaps;
      e.refcount := count;
    }

    method Reference(e: Endpoint)
      requires Distinct() && e in endpoints
      modifies e`refcount
      ensures Distinct() && View() == old(View()).(eps := Referenced(old(View()).eps, e))
    {
      SetCount(e, e.refcount + 1);
    }

    method Forget(e: Endpoint)
      requires Distinct() && e in endpoints
      modifies e`refcount
      ensures Distinct() && View() == old(View()).(eps := Forgotten(old(View()).eps, e))
    {
      if e.refcount > 0 {
        SetCount(e, e.refcount - 1);
      }
    }

    // ---- messages ----

    method NewMessage(m: Mail) returns (msg: Message)
      requires Distinct()
      ensures fresh(msg) && Snap(msg) == m && Distinct() && Unqueued(msg) && View() == old(View())
    {
      msg := new Message(m.kind, m.name, m.from, m.to, m.wack);
      assert forall x :: x in endpoints ==> Look(x) == old(Look(x));
    }

    /** create_message_katcp: the new message counts as a reference to its sender and to its receiver. */
    method CreateMessage(m: Mail) returns (msg: Message)
      requires Distinct() && Loose(View().eps, m)
      modifies m.to`refcount, Referent(m.from)`refcount
      ensures fresh(msg) && Snap(msg) == m && Distinct() && Unqueued(msg)
      ensures View() == old(View()).(eps := Mention(old(View()).eps, m))
    {
      msg := NewMessage(m);
      if m.from != null {
        Reference(m.from);
      }
      Reference(m.to);
    }

    method ClearParties(msg: Message)
      requires Distinct() && Unqueued(msg)
      modifies msg`from, msg`to
      ensures Distinct() && View() == old(View()) && msg.from == null && msg.to == null
    {
      hide Snaps;
      msg.from, msg.to := null, null;
    }

    /** destroy_message_katcp */
    method DestroyMessage(msg: Message)
      requires Distinct() && Unqueued(msg) && Loose(View().eps, Snap(msg))
      modifies msg, msg.to`refcount, Referent(msg.from)`refcount
      ensures Distinct()
      ensures View() == Destroy(old(View()), old(Snap(msg)))
    {
      if msg.from != null {
        Forget(msg.from);
      }
      if msg.to != null {
        Forget(msg.to);
      }
      ClearParties(msg);
    }

    ghost method Admit(msg: Message)
      requires Contained()
      modifies `mail
      ensures Contained() && mail == old(mail) + {msg} && View() == old(View())
    {
      mail := mail + {msg};
    }

    method Push(ep: Endpoint, msg: Message)
      requires Contained() && ep in endpoints && msg in mail
      modifies ep`queue
      ensures Contained() && ep.queue == old(ep.queue) + [msg]
      ensures View() == old(View()).(eps := old(View()).eps[ep :=
        old(Look(ep)).(queue := old(Look(ep)).queue + [Snap(msg)])])
    {
      hide Snaps, NoDup;
      SnapsAppend(ep.queue, msg);
      ep.queue := ep.queue + [msg];
    }

    method Enqueue(ep: Endpoint, msg: Message)
      requires Contained() && ep in endpoints
      modifies ep`queue, `mail
      ensures Contained() && ep.queue == old(ep.queue) + [msg] && mail == old(mail) + {msg}
      ensures View() == old(View()).(eps := old(View()).eps[ep :=
        old(Look(ep)).(queue := old(Look(ep)).queue + [Snap(msg)])])
    {
      hide *;
      Admit(msg);
      Push(ep, msg);
    }

    /** queue_message_katcp: only an endpoint that receives takes the message. */
    method QueueMessage(msg: Message) returns (result: int)
      requires Distinct() && Unqueued(msg) && Loose(View().eps, Snap(msg))
      modifies msg.to`queue, `mail
      ensures Distinct()
      ensures result == if old(View()).eps[msg.to].receiving then 0 else -1
      ensures result == 0 ==> View() == old(View()).(eps := Append(old(View()).eps, Snap(msg)))
      ensures result == 0 ==> msg.to.queue == old(msg.to.queue) + [msg] && mail == old(mail) + {msg}
      ensures result != 0 ==> View() == old(View()) && unchanged(this) && unchanged(msg.to)
    {
      var ep := msg.to;
      if ep == null {
        return -1;
      }
      if !ep.state.receiving {
        return -1;
      }
      Enqueue(ep, msg);
      return 0;
    }

    lemma InOneQueue(e: Endpoint, x: Endpoint, msg: Message)
      requires Valid() && e in endpoints && x in endpoints && msg in e.queue && msg in x.queue
      ensures e == x
    {
      var i, j :| 0 <= i < |e.queue| && e.queue[i] == msg && 0 <= j < |x.queue| && x.queue[j] == msg;
      SnapsAt(e.queue, i);
      SnapsAt(x.queue, j);
      assert Placed(View().eps, e, Snap(msg)) && Placed(View().eps, x, Snap(msg));
    }

    lemma HeadElsewhere(ep: Endpoint)
      requires Valid() && ep in endpoints && ep.queue != []
      ensures forall x :: x in endpoints && x != ep ==> ep.queue[0] !in x.queue
    {
      forall x | x in endpoints && x != ep
        ensures ep.queue[0] !in x.queue
      {
        if ep.queue[0] in x.queue {
          InOneQueue(ep, x, ep.queue[0]);
        }
      }
    }

    method Dequeue(ep: Endpoint) returns (msg: Message)
      requires Contained() && ep in endpoints && ep.queue != []
      modifies ep`queue
      ensures Contained() && msg == old(ep.queue[0]) && ep.queue == old(ep.queue[1..])
      ensures View() == old(View()).(eps := Pop(old(View()).eps, ep)) && Snap(msg) == old(View()).eps[ep].queue[0]
    {
      msg := ep.queue[0];
      ep.queue := ep.queue[1..];
    }

    /** remove_head_gueue_katcl on the queue of an endpoint */
    method RemoveHead(ep: Endpoint) returns (msg: Message)
      requires Valid() && ep in endpoints && ep.queue != []
      modifies ep`queue
      ensures Distinct() && Unqueued(msg) && msg == old(ep.queue[0]) && ep.queue == old(ep.queue[1..])
      ensures View() == old(View()).(eps := Pop(old(View()).eps, ep)) && Snap(msg) == old(View()).eps[ep].queue[0]
      ensures Loose(View().eps, Snap(msg)) && Sound(View(), [Snap(msg)])
    {
      PopSound(View(), ep);
      PlacedLoose(View(), ep);
      HeadElsewhere(ep);
      NoDupTail(ep.queue);
      assert Placed(View().eps, ep, View().eps[ep].queue[0]);
      hide Sound, Pop, Snaps;
      msg := Dequeue(ep);
    }

    method SwapParties(msg: Message)
      requires Distinct() && Unqueued(msg)
      modifies msg`from, msg`to
      ensures Distinct() && View() == old(View()) && msg.from == old(msg.to) && msg.to == old(msg.from)
    {
      hide Snaps;
      msg.from, msg.to := msg.to, msg.from;
    }

    method MakeReply(msg: Message, code: Verdict)
      requires Distinct() && Unqueued(msg)
      modifies msg`kind, msg`wack
      ensures Distinct() && View() == old(View()) && msg.kind == Reply(code) && !msg.wack
    {
      hide Snaps;
      msg.kind, msg.wack := Reply(code), false;
    }

    /** The reply reuses the message of the request. */
    method TurnParties(msg: Message, code: Verdict)
      requires Distinct() && Unqueued(msg)
      modifies msg
      ensures Distinct() && View() == old(View()) && Snap(msg) == old(Snap(msg)).Turned(code)
      ensures Snap(msg) == Mail(Reply(code), old(msg.name), old(msg.to), old(msg.from), false)
    {
      MakeReply(msg, code);
      SwapParties(msg);
    }

    /** Queue a message, or destroy it when its receiver takes nothing. */
    method QueueOrDestroy(msg: Message) returns (result: int)
      requires Distinct() && Unqueued(msg) && Loose(View().eps, Snap(msg))
      modifies msg, msg.to`refcount, Referent(msg.from)`refcount, msg.to`queue, `mail
      ensures Distinct() && mail <= old(mail) + {msg} && Prefixed(old(endpoints))
      ensures result == if old(msg.to.state.receiving) then 0 else -1
      ensures View() == old(View()).(eps :=
        if result == 0 then Append(old(View()).eps, old(Snap(msg))) else Unmention(old(View()).eps, old(Snap(msg))))
      ensures result == 0 ==> old(msg.to).queue == old(msg.to.queue) + [msg] && unchanged(msg)
    {
      result := QueueMessage(msg);
      if result < 0 {
        DestroyMessage(msg);
      }
    }

    ghost method Enter(entry: Books)
      requires Distinct()
      modifies `books
      ensures Distinct() && View() == old(View()).(books := entry)
    {
      books := entry;
    }

    /** Send a reply back if its receiver still takes it, and enter in the books what became of the request. */
    method Answer(reply: Message, ghost request: Mail) returns (result: int)
      requires Distinct() && Unqueued(reply) && Loose(View().eps, Snap(reply)) && reply.from != null
      modifies reply, reply.to`refcount, reply.from`refcount, reply.to`queue, `mail, `books
      ensures Distinct() && mail <= old(mail) + {reply} && Prefixed(old(endpoints))
      ensures result == if old(reply.to.state.receiving) then 0 else -1
      ensures var s := old(View());
        View() == if result == 0
          then s.(eps := Append(s.eps, old(Snap(reply))),
            books := s.books.(answered := s.books.answered + multiset{request}))
          else s.(eps := Unmention(s.eps, old(Snap(reply))),
            books := s.books.(stranded := s.books.stranded + multiset{request}))
      ensures result == 0 ==> old(reply.to).queue == old(reply.to.queue) + [reply] && unchanged(reply)
    {
      result := QueueOrDestroy(reply);
      Enter(if result == 0 then books.(answered := books.answered + multiset{request})
        else books.(stranded := books.stranded + multiset{request}));
    }

    /** vturnaround_endpoint_katcp: the message itself goes back to its sender as the reply; -1 when that takes no reply
      * any more. */
    method Turnaround(msg: Message, code: Verdict) returns (result: int)
      requires Distinct() && Unqueued(msg) && Loose(View().eps, Snap(msg))
      modifies msg, msg.to`refcount, Referent(msg.from)`refcount, Referent(msg.from)`queue, `mail, `books
      ensures Distinct() && View() == EndpointCalls.Turnaround(old(View()), old(Snap(msg)), code)
      ensures mail <= old(mail) + {msg} && Prefixed(old(endpoints))
      ensures result == if old(msg.wack && !msg.from.state.receiving) then -1 else 0
      ensures old(msg.wack) && result == 0 ==>
        old(msg.from).queue == old(msg.from.queue) + [msg]
        && Snap(msg) == Mail(Reply(code), old(msg.name), old(msg.to), old(msg.from), false)
    {
      result := 0;
      if msg.wack {
        ghost var request := Snap(msg);
        TurnParties(msg, code);
        result := Answer(msg, request);
      } else {
        DestroyMessage(msg);
      }
    }

    // ---- send_message_endpoint_katcp ----

    /** The part of a send after its checks: create, queue, and destroy again when the receiver takes nothing. */
    method Deposit(m: Mail) returns (result: int, ghost msg: Message)
      requires Distinct() && Loose(View().eps, m)
      modifies m.to`refcount, Referent(m.from)`refcount, m.to`queue, `mail
      ensures Distinct() && fresh(msg) && mail <= old(mail) + {msg} && old(m.to.queue) <= m.to.queue
      ensures result == if old(m.to.state.receiving) then 0 else -1
      ensures var mid := Mention(old(View()).eps, m);
        Loose(mid, m) && View() == old(View()).(eps := if result == 0 then Append(mid, m) else Unmention(mid, m))
    {
      MentionAdjusted(View().eps, m);
      hide Mention, Append, Unmention, Distinct, Adjusted;
      var message := CreateMessage(m);
      msg := message;
      result := QueueOrDestroy(message);
    }

    /** The same, with the queues of all endpoints. */
    method DepositPrefixed(m: Mail) returns (result: int)
      requires Distinct() && Loose(View().eps, m)
      modifies m.to`refcount, Referent(m.from)`refcount, m.to`queue, `mail
      ensures Distinct() && fresh(mail - old(mail)) && Prefixed(endpoints)
      ensures result == if old(m.to.state.receiving) then 0 else -1
      ensures var mid := Mention(old(View()).eps, m);
        Loose(mid, m) && View() == old(View()).(eps := if result == 0 then Append(mid, m) else Unmention(mid, m))
    {
      hide Mention, Append, Unmention, Loose, Distinct, Contained, View, Look;
      ghost var msg;
      result, msg := Deposit(m);
    }

    /** The same, in terms of all endpoints. */
    method DepositAmong(m: Mail) returns (result: int)
      requires Distinct() && Loose(View().eps, m)
      modifies endpoints`refcount, endpoints`queue, `mail
      ensures Distinct() && fresh(mail - old(mail)) && Prefixed(endpoints)
      ensures result == if old(m.to.state.receiving) then 0 else -1
      ensures var mid := Mention(old(View()).eps, m);
        Loose(mid, m) && View() == old(View()).(eps := if result == 0 then Append(mid, m) else Unmention(mid, m))
    {
      assert m.to in endpoints && (m.from == null || m.from in endpoints);
      hide *;
      result := DepositPrefixed(m);
    }

    /** A send past the checks on its sender. */
    method SendOn(m: Mail) returns (result: int)
      requires Distinct() && Sendable(View(), m) && m.from != m.to && (m.from != null ==> m.from.state.sending)
      modifies endpoints`refcount, endpoints`queue, `mail, `books
      ensures Distinct() && View() == EndpointCalls.Send(old(View()), m) && fresh(mail - old(mail))
      ensures Prefixed(endpoints) && result == if Refused(old(View()), m) then -1 else 0
    {
      hide EndpointCalls.Send, Refused, Snaps, Mention, Append, Unmention, Loose;
      SendAccepted(View(), m);
      result := DepositAmong(m);
      Enter(if result == 0 && m.Owed() then books.(accepted := books.accepted + multiset{m}) else books);
    }

    method SendChecked(m: Mail) returns (result: int)
      requires Distinct() && Sendable(View(), m)
      modifies endpoints`refcount, endpoints`queue, `mail, `books
      ensures Distinct() && View() == EndpointCalls.Send(old(View()), m) && fresh(mail - old(mail))
      ensures Prefixed(endpoints) && result == if Refused(old(View()), m) then -1 else 0
    {
      if m.to == null || m.from == m.to || (m.from != null && !m.from.state.sending) {
        return -1;
      }
      hide EndpointCalls.Send;
      result := SendOn(m);
    }

    method Send(m: Mail) returns (result: int)
      requires Valid() && Sendable(View(), m)
      modifies endpoints`refcount, endpoints`queue, `mail, `books
      ensures Valid() && View() == EndpointCalls.Send(old(View()), m) && fresh(mail - old(mail))
      ensures Prefixed(endpoints) && result == if Refused(old(View()), m) then -1 else 0
    {
      SendSound(View(), m);
      result := SendChecked(m);
    }

    // ---- flush_endpoint_katcp, release_endpoint_katcp ----

    /** What the flush and the pass do with a message that has been dealt with. */
    method Dispose(msg: Message, code: Verdict)
      requires Distinct() && Unqueued(msg) && Loose(View().eps, Snap(msg))
      modifies msg, msg.to`refcount, Referent(msg.from)`refcount, Referent(msg.from)`queue, `mail, `books
      ensures Distinct() && View() == EndpointCalls.Dispose(old(View()), old(Snap(msg)), code)
      ensures mail <= old(mail) + {msg} && Prefixed(endpoints)
    {
      if msg.kind.Request? {
        var _ := Turnaround(msg, code);
      } else {
        DestroyMessage(msg);
      }
    }

    method FlushOne(ep: Endpoint)
      requires Valid() && ep in endpoints && ep.queue != []
      modifies endpoints`refcount, endpoints`queue, mail, `mail, `books
      ensures Valid() && Flushable(old(View()).eps, ep) && View() == FlushFirst(old(View()), ep)
      ensures mail <= old(mail) && forall e :: e in endpoints && e != ep ==> old(e.queue) <= e.queue
    {
      PlacedLoose(View(), ep);
      FlushFirstSound(View(), ep);
      var msg := RemoveHead(ep);
      Dispose(msg, Fail);
    }

    method Flush(ep: Endpoint) returns (count: nat)
      requires Valid() && ep in endpoints
      modifies endpoints`refcount, endpoints`queue, mail, `mail, `books
      ensures Valid() && Flushable(old(View()).eps, ep) && View() == EndpointCalls.Flush(old(View()), ep)
      ensures mail <= old(mail) && (forall e :: e in endpoints && e != ep ==> old(e.queue) <= e.queue)
      ensures count == |old(ep.queue)| && ep.queue == []
    {
      count := 0;
      PlacedLoose(View(), ep);
      while ep.queue != []
        invariant Valid() && Flushable(View().eps, ep) && mail <= old(mail)
        invariant EndpointCalls.Flush(View(), ep) == EndpointCalls.Flush(old(View()), ep)
        invariant forall e :: e in endpoints && e != ep ==> old(e.queue) <= e.queue
        invariant count + |ep.queue| == |old(ep.queue)|
        decreases |ep.queue|
      {
        FlushOne(ep);
        count := count + 1;
      }
    }

    method SetWake(ep: Endpoint, wake: bool)
      requires Distinct() && ep in endpoints
      modifies ep`wake
      ensures Distinct() && View() == old(View()).(eps := old(View()).eps[ep := old(Look(ep)).(wake := wake)])
    {
      hide Snaps;
      ep.wake := wake;
    }

    method SetState(ep: Endpoint, state: Condition)
      requires Distinct() && ep in endpoints
      modifies ep`state
      ensures Distinct() && ep.state == state && View() == old(View()).(eps := old(View()).eps[ep :=
        old(Look(ep)).(up := state.up, receiving := state.receiving, sending := state.sending)])
    {
      hide Snaps;
      ep.state := state;
    }

    method Detach(ep: Endpoint)
      requires Valid() && ep in endpoints
      modifies ep`wake
      ensures Valid() && View() == old(View()).(eps := old(View()).eps[ep := old(Look(ep)).(wake := false)])
    {
      FlagsSound(View(), ep, Look(ep).(wake := false));
      SetWake(ep, false);
    }

    method Abandon(ep: Endpoint) returns (count: nat)
      requires Valid() && ep in endpoints && ep.state.up
      modifies endpoints, mail, `mail, `books
      ensures Distinct() && Flushable(old(View()).eps, ep) && View() == EndpointCalls.Release(old(View()), ep)
      ensures mail <= old(mail) && (forall e :: e in endpoints && e != ep ==> old(e.queue) <= e.queue)
      ensures count == |old(ep.queue)|
    {
      PlacedLoose(View(), ep);
      Detach(ep);
      count := Flush(ep);
      SetState(ep, GONE);
    }

    /** release_endpoint_katcp: fail what is queued, then be gone; the pass over the endpoints frees it later. */
    method Release(ep: Endpoint) returns (count: nat)
      requires Valid() && ep in endpoints
      modifies endpoints, mail, `mail, `books
      ensures Valid() && View() == ReleaseStep(old(View()), ep)
      ensures mail <= old(mail) && (forall e :: e in endpoints && e != ep ==> old(e.queue) <= e.queue)
      ensures count == if old(ep.state.up) then |old(ep.queue)| else 0
    {
      PlacedLoose(View(), ep);
      ReleaseSound(View(), ep);
      if !ep.state.up {
        return 0;
      }
      count := Abandon(ep);
    }

    method CloseReceiving(ep: Endpoint)
      requires Valid() && ep in endpoints
      modifies ep`state
      ensures Valid() && View() == Apply(old(View()), ClosedReceiving(ep))
      ensures ep.state == if old(ep.state.up) then old(ep.state).(receiving := false) else old(ep.state)
    {
      StepSound(View(), ClosedReceiving(ep));
      if ep.state.up {
        SetState(ep, ep.state.(receiving := false));
      }
    }

    method CloseSending(ep: Endpoint)
      requires Valid() && ep in endpoints
      modifies ep`state
      ensures Valid() && View() == Apply(old(View()), ClosedSending(ep))
      ensures ep.state == if old(ep.state.up) then old(ep.state).(sending := false) else old(ep.state)
    {
      StepSound(View(), ClosedSending(ep));
      if ep.state.up {
        SetState(ep, ep.state.(sending := false));
      }
    }

    /** A caller takes a reference of its own. */
    method Hold(ep: Endpoint)
      requires Valid() && ep in endpoints
      modifies ep`refcount, `holders
      ensures Valid() && View() == Apply(old(View()), Held(ep))
    {
      StepSound(View(), Held(ep));
      Reference(ep);
      SetHolders(holders + multiset{ep});
    }

    /** A caller gives up a reference of its own. */
    method Drop(ep: Endpoint)
      requires Valid() && ep in endpoints && ep in holders
      modifies ep`refcount, `holders
      ensures Valid() && View() == Apply(old(View()), Dropped(ep))
    {
      StepSound(View(), Dropped(ep));
      Forget(ep);
      SetHolders(holders - multiset{ep});
    }

    method SetHolders(held: multiset<Endpoint>)
      requires Distinct()
      modifies `holders
      ensures Distinct() && View() == old(View()).(holders := held)
    {
      holders := held;
    }

    method NewEndpoint(wake: bool, fast: bool) returns (ep: Endpoint)
      requires Distinct()
      ensures fresh(ep) && Distinct() && View() == old(View()) && Look(ep) == Ep(true, wake, true, wake, fast, 0, [])
      ensures ep.queue == []
    {
      ep := new Endpoint(wake, fast);
    }

    method Prepend(ep: Endpoint)
      requires Distinct() && ep !in endpoints && ep.queue == []
      modifies `endpoints
      ensures endpoints == [ep] + old(endpoints) && Distinct()
      ensures View() == old(View()).(order := endpoints, eps := old(View()).eps[ep := Look(ep)])
    {
      hide Snaps;
      endpoints := [ep] + endpoints;
    }

    /** create_endpoint_katcp: new endpoints go to the front of the list. */
    method Create(wake: bool, fast: bool) returns (ep: Endpoint)
      requires Valid()
      modifies `endpoints
      ensures fresh(ep) && Valid() && View() == EndpointCalls.Create(old(View()), ep, wake, fast)
      ensures endpoints == [ep] + old(endpoints) && ep.queue == []
      ensures Look(ep) == Ep(true, wake, true, wake, fast, 0, [])
    {
      ep := NewEndpoint(wake, fast);
      CreateSound(View(), ep, wake, fast);
      Prepend(ep);
    }

    // ---- run_endpoints_katcp ----

    method PerformSend(self: Endpoint, m: Mail)
      requires Valid() && self in endpoints
      modifies endpoints`refcount, endpoints`queue, `mail, `books
      ensures Valid() && View() == Act(old(View()), self, Sent(m)) && fresh(mail - old(mail)) && Prefixed(endpoints)
    {
      hide Sound, Act, EndpointCalls.Send;
      ActSent(View(), self, m);
      if (m.to != null && m.to in endpoints) && (m.from == null || m.from in endpoints)
        && (m.wack || m.kind.Reply? ==> m.from != null) {
        var _ := Send(m);
      }
    }

    method PerformRelease(self: Endpoint, e: Endpoint)
      requires Valid() && self in endpoints
      modifies endpoints, mail, `mail, `books
      ensures Valid() && View() == Act(old(View()), self, Released(e)) && mail <= old(mail)
      ensures old(self.queue) <= self.queue
    {
      hide Sound, Act, ReleaseStep;
      ActReleased(View(), self, e);
      if e in endpoints && e != self {
        var _ := Release(e);
      }
    }

    method PerformClose(self: Endpoint, st: Step)
      requires Valid() && self in endpoints && (st.ClosedReceiving? || st.ClosedSending?)
      modifies endpoints`state
      ensures Valid() && View() == Act(old(View()), self, st)
    {
      ActNear(View(), self, st);
      hide Sound, Act, Apply;
      if st.e in endpoints {
        if st.ClosedReceiving? {
          CloseReceiving(st.e);
        } else {
          CloseSending(st.e);
        }
      }
    }

    method PerformCount(self: Endpoint, st: Step)
      requires Valid() && self in endpoints && (st.Held? || st.Dropped?)
      modifies endpoints`refcount, `holders
      ensures Valid() && View() == Act(old(View()), self, st)
    {
      ActNear(View(), self, st);
      if st.e in holders {
        DropSound(View(), st.e);
      }
      hide Sound, Act, Apply;
      if st.Held? {
        if st.e in endpoints {
          Hold(st.e);
        }
      } else if st.e in holders {
        Drop(st.e);
      }
    }

    /** One call that a wake callback makes on the layer; it makes no call that its caller may not make. */
    method Perform(self: Endpoint, st: Step)
      requires Valid() && self in endpoints
      modifies this, endpoints, mail
      ensures Valid() && View() == Act(old(View()), self, st) && fresh(mail - old(mail))
      ensures old(self.queue) <= self.queue
    {
      hide Sound;
      match st
      case Sent(m) => PerformSend(self, m);
      case Held(_) => PerformCount(self, st);
      case Dropped(_) => PerformCount(self, st);
      case ClosedReceiving(_) => PerformClose(self, st);
      case ClosedSending(_) => PerformClose(self, st);
      case Released(e) => PerformRelease(self, e);
      case _ =>
    }

    /** The wake callback of an endpoint, as the calls it makes one after the other. */
    method Wake(self: Endpoint, acts: seq<Step>)
      requires Valid() && self in endpoints
      modifies this, endpoints, mail
      ensures Valid() && View() == Acts(old(View()), self, acts) && fresh(mail - old(mail))
      ensures old(self.queue) <= self.queue && endpoints == old(endpoints)
      decreases |acts|
    {
      hide Sound;
      if acts != [] {
        ActServed(View(), self, acts[0]);
        Perform(self, acts[0]);
        Wake(self, acts[1..]);
      }
    }

    method DestroyHead(ep: Endpoint) returns (ghost m: Mail)
      requires Valid() && ep in endpoints && ep.queue != []
      modifies endpoints`refcount, endpoints`queue, mail
      ensures Distinct() && m == old(View()).eps[ep].queue[0]
      ensures var p := old(View()).(eps := Pop(old(View()).eps, ep));
        Loose(p.eps, m) && View() == Destroy(p, m)
    {
      hide Sound;
      var msg := RemoveHead(ep);
      m := Snap(msg);
      DestroyMessage(msg);
    }

    /** The callback has taken the message over and dealt with its sender itself. */
    method TakeOver(ep: Endpoint)
      requires Valid() && ep in endpoints && ep.queue != []
      modifies endpoints`refcount, endpoints`queue, mail, `books
      ensures Distinct() && Flushable(old(View()).eps, ep) && View() == EndpointCalls.Deliver(old(View()), ep, Own)
    {
      PlacedLoose(View(), ep);
      DeliverOwn(View(), ep);
      hide *;
      ghost var m := DestroyHead(ep);
      Enter(if m.Owed() then books.(owned := books.owned + multiset{m}) else books);
    }

    method Finish(ep: Endpoint, verdict: Verdict)
      requires Valid() && ep in endpoints && ep.queue != [] && !verdict.Own? && !Stops(verdict)
      modifies endpoints`refcount, endpoints`queue, mail, `mail, `books
      ensures Distinct() && Flushable(old(View()).eps, ep) && View() == EndpointCalls.Deliver(old(View()), ep, verdict)
      ensures mail <= old(mail)
    {
      PlacedLoose(View(), ep);
      DeliverOther(View(), ep, verdict);
      hide Sound, EndpointCalls.Dispose, EndpointCalls.Deliver;
      var msg := RemoveHead(ep);
      Dispose(msg, verdict);
    }

    /** The switch on a verdict that takes the message off; the one that the callback saw still is the first. */
    method Switch(ep: Endpoint, verdict: Verdict)
      requires Valid() && ep in endpoints && ep.queue != [] && !Stops(verdict)
      modifies this, endpoints, mail
      ensures Distinct() && Flushable(old(View()).eps, ep) && View() == EndpointCalls.Deliver(old(View()), ep, verdict)
      ensures endpoints == old(endpoints) && mail <= old(mail)
    {
      hide Sound, EndpointCalls.Deliver, Flushable, Distinct, Contained;
      if verdict.Own? {
        TakeOver(ep);
      } else {
        Finish(ep, verdict);
      }
    }

    method Deliver(ep: Endpoint, verdict: Verdict)
      requires Valid() && ep in endpoints && ep.queue != []
      modifies this, endpoints, mail
      ensures Valid() && View() == WakeStep(old(View()), ep, verdict)
      ensures endpoints == old(endpoints) && mail <= old(mail)
    {
      DeliverSound(View(), ep, verdict) by { PlacedLoose(View(), ep); }
      WakeStepIs(View(), ep, verdict);
      hide Sound, WakeStep, EndpointCalls.Deliver, Flushable;
      if !Stops(verdict) {
        Switch(ep, verdict);
      }
    }

    method ServeOne(ep: Endpoint, turn: Turn)
      requires Valid() && ep in endpoints && ep.queue != []
      modifies this, endpoints, mail
      ensures Valid() && View() == EndpointPass.ServeOne(old(View()), ep, turn)
      ensures endpoints == old(endpoints) && fresh(mail - old(mail))
    {
      ActsServed(View(), ep, turn.acts);
      hide Sound;
      ghost var msg := ep.queue[0];
      Wake(ep, turn.acts);
      assert ep.queue[0] == msg;
      Deliver(ep, turn.verdict);
    }

    method Round(ep: Endpoint, script: seq<Turn>) returns (rest: seq<Turn>, more: bool)
      requires Valid() && ep in endpoints && ep.queue != []
      modifies this, endpoints, mail
      ensures Valid() && endpoints == old(endpoints) && fresh(mail - old(mail))
      ensures EndpointPass.Serve(old(View()), ep, script) ==
        if more then EndpointPass.Serve(View(), ep, rest) else (View(), rest)
      ensures more ==> |rest| < |script| || (|rest| == |script| && |ep.queue| < |old(ep.queue)|)
    {
      var turn := if !ep.wake then Turn([], Fail) else if script == [] then Turn([], Yield) else script[0];
      rest := RestTurns(ep.wake, script);
      more := ep.fast && !Stops(turn.verdict);
      ServeRound(View(), ep, script, turn, rest);
      hide Sound, EndpointPass.Serve, EndpointPass.ServeOne;
      ServeOne(ep, turn);
    }

    /** The inner loop of the pass. An endpoint without a wake function fails whatever is in its queue. */
    method Serve(ep: Endpoint, script: seq<Turn>) returns (rest: seq<Turn>)
      requires Valid() && ep in endpoints
      modifies this, endpoints, mail
      ensures Valid() && (View(), rest) == EndpointPass.Serve(old(View()), ep, script)
      ensures endpoints == old(endpoints) && fresh(mail - old(mail))
    {
      hide Sound, EndpointPass.Serve;
      rest := script;
      var more := true;
      while more && ep.queue != []
        invariant Valid() && endpoints == old(endpoints) && fresh(mail - old(mail))
        invariant EndpointPass.Serve(old(View()), ep, script) ==
          if more then EndpointPass.Serve(View(), ep, rest) else (View(), rest)
        decreases more, |rest|, |ep.queue|
      {
        rest, more := Round(ep, rest);
      }
      if more {
        ServeDone(View(), ep, rest);
      }
    }

    method Relist(list: seq<Endpoint>, ghost e: Endpoint)
      requires Distinct() && e in endpoints && e !in list && (forall x :: x in list ==> x in endpoints)
      requires forall x :: x in endpoints && x != e ==> x in list
      modifies `endpoints
      ensures endpoints == list && Distinct()
      ensures View() == old(View()).(order := list, eps := old(View()).eps - {e})
    {
      endpoints := list;
    }

    method Unlink(i: nat)
      requires Distinct() && NoDup(endpoints) && i < |endpoints|
      modifies `endpoints
      ensures endpoints == old(endpoints[..i] + endpoints[i + 1..]) && Distinct()
      ensures View() == EndpointCalls.Collect(old(View()), old(endpoints[i]))
    {
      WithoutPlace(endpoints, i);
      WithoutKeeps(endpoints, endpoints[i]);
      Relist(endpoints[..i] + endpoints[i + 1..], endpoints[i]);
    }

    /** Free the endpoint at index i if it is gone and nothing refers to it; the result is the index to go on with. */
    method CollectAt(i: nat) returns (next: nat)
      requires Valid() && i < |endpoints|
      modifies `endpoints
      ensures Valid() && next <= |endpoints| && endpoints[next..] == old(endpoints[i + 1..])
      ensures View() == CollectIf(old(View()), old(endpoints[i]))
      ensures forall e :: e in endpoints ==> e in old(endpoints)
    {
      var ep := endpoints[i];
      SoundListed(View(), []);
      hide Sound;
      if !ep.state.up && ep.refcount <= 0 {
        CollectSound(View(), ep);
        Unlink(i);
        next := i;
      } else {
        next := i + 1;
      }
    }

    method Visit(i: nat, script: seq<Turn>) returns (rest: seq<Turn>, next: nat)
      requires Valid() && i < |endpoints|
      modifies this, endpoints, mail
      ensures Valid() && (View(), rest) == EndpointPass.Visit(old(View()), old(endpoints[i]), script)
      ensures fresh(mail - old(mail)) && next <= |endpoints| && endpoints[next..] == old(endpoints[i + 1..])
      ensures forall e :: e in endpoints ==> e in old(endpoints)
    {
      hide Sound, CollectIf, EndpointPass.Serve;
      rest := script;
      if endpoints[i].state.up {
        rest := Serve(endpoints[i], rest);
      }
      next := CollectAt(i);
    }

    /** What is left of a pass that has come to index i. */
    ghost function Remaining(i: nat, script: seq<Turn>): State
      requires Valid() && i <= |endpoints|
      reads this, endpoints, mail
    {
      SoundListed(View(), []);
      Pass(View(), endpoints[i..], script)
    }

    method Advance(i: nat, script: seq<Turn>, ghost listed: set<Endpoint>) returns (rest: seq<Turn>, next: nat)
      requires Valid() && i < |endpoints| && (forall e :: e in endpoints ==> e in listed)
      modifies this, listed, mail
      ensures Valid() && next <= |endpoints| && |endpoints| - next < old(|endpoints| - i)
      ensures fresh(mail - old(mail)) && (forall e :: e in endpoints ==> e in listed)
      ensures Remaining(next, rest) == old(Remaining(i, script))
    {
      SoundListed(View(), []);
      hide Sound, EndpointPass.Visit;
      ghost var pending := endpoints[i..];
      PassRound(View(), pending, script);
      rest, next := Visit(i, script);
      assert endpoints[next..] == pending[1..];
    }

    lemma RemainingNothing(script: seq<Turn>)
      requires Valid()
      ensures Remaining(|endpoints|, script) == View()
    {
      PassDone(View(), script);
      assert endpoints[|endpoints|..] == [];
    }

    lemma RemainingAll(script: seq<Turn>)
      requires Valid()
      ensures NoDup(endpoints) && (forall e :: e in endpoints ==> e in View().eps)
      ensures Remaining(0, script) == Pass(View(), endpoints, script)
    {
      SoundListed(View(), []);
      assert endpoints[0..] == endpoints;
    }

    method Sweep(script: seq<Turn>, ghost listed: set<Endpoint>) returns (rest: seq<Turn>)
      requires Valid() && (forall e :: e in endpoints ==> e in listed)
      modifies this, listed, mail
      ensures Valid() && Remaining(|endpoints|, rest) == old(Remaining(0, script))
    {
      hide *;
      rest := script;
      var i := 0;
      while i < |endpoints|
        invariant Valid() && 0 <= i <= |endpoints| && fresh(mail - old(mail))
        invariant forall e :: e in endpoints ==> e in listed
        invariant Remaining(i, rest) == old(Remaining(0, script))
        decreases |endpoints| - i
      {
        rest, i := Advance(i, rest, listed);
      }
    }

    /** run_endpoints_katcp: serve every endpoint once and free the gone ones that nothing refers to. */
    method Run(script: seq<Turn>)
      requires Valid()
      modifies this, endpoints, mail
      ensures Valid() && NoDup(old(endpoints)) && View() == Pass(old(View()), old(endpoints), script)
    {
      RemainingAll(script);
      hide Remaining, Pass;
      var rest := Sweep(script, set e | e in endpoints);
      RemainingNothing(rest);
    }
  }

  /** No message was taken off any of the queues. */
  twostate predicate Prefixed(es: seq<Endpoint>)
    reads es
  {
    forall e :: e in es ==> old(e.queue) <= e.queue
  }

  ghost function Referent(e: Endpoint?): set<Endpoint> {
    if e == null then {} else {e}
  }

  lemma NoDupTail<T>(q: seq<T>)
    requires NoDup(q) && q != []
    ensures NoDup(q[1..]) && q[0] !in q[1..]
  {
  }

  /** A message that could not be queued takes its references with it: a refused send changes nothing. */
  lemma MentionUndone(eps: map<Endpoint, Ep>, m: Mail)
    requires Loose(eps, m) && forall e :: e in eps ==> eps[e].refs >= 0
    ensures Loose(Mention(eps, m), m) && Unmention(Mention(eps, m), m) == eps
  {
    var a := Mention(eps, m);
    MentionAdjusted(eps, m);
    assert Loose(a, m) && a[m.to].refs > 0 && (m.from != null ==> a[m.from].refs > 0);
    UnmentionAdjusted(a, m);
    AdjustedBack(eps, a, Unmention(a, m), m);
  }

  lemma SendAccepted(s: State, m: Mail)
    requires Sendable(s, m) && m.from != m.to && (m.from != null ==> s.eps[m.from].sending)
      && forall e :: e in s.eps ==> s.eps[e].refs >= 0
    ensures Loose(s.eps, m) && Loose(Mention(s.eps, m), m) && Unmention(Mention(s.eps, m), m) == s.eps
    ensures Refused(s, m) <==> !s.eps[m.to].receiving
    ensures EndpointCalls.Send(s, m) == if Refused(s, m) then s else
      s.(eps := Append(Mention(s.eps, m), m),
         books := if m.Owed() then s.books.(accepted := s.books.accepted + multiset{m}) else s.books)
  {
    MentionUndone(s.eps, m);
  }

  lemma AdjustedBack(eps: map<Endpoint, Ep>, mid: map<Endpoint, Ep>, back: map<Endpoint, Ep>, m: Mail)
    requires Adjusted(eps, mid, m, 1) && Adjusted(mid, back, m, -1)
    ensures back == eps
  {
    forall e | e in eps
      ensures back[e] == eps[e]
    {
      assert mid[e].refs == eps[e].refs + 1 * Names(m, e);
    }
  }
}
