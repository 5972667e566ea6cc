/** The state of the endpoint message layer as a value, and how often the mail in it mentions an endpoint or is owed a
  * reply. The imperative layer is proved to follow the functions on such states. */
module EndpointState {

  /** The status a wake callback returns, and the status word of a reply. */
  datatype Verdict = Ok | Fail | Invalid | Own | Pause | Yield

  datatype Kind = Request | Reply(code: Verdict) | Inform

  /** e_state: the UP, RX and TX bits; GONE is none of them. */
  datatype Condition = Condition(up: bool, receiving: bool, sending: bool)

  const GONE := Condition(false, false, false)

  class Endpoint {
    var state: Condition
    var wake: bool
    var fast: bool
    var refcount: nat
    var queue: seq<Message>

    /** init_endpoint_katcp: without a wake function nothing may be sent to the endpoint. */
    constructor (wake: bool, fast: bool)
      ensures state == Condition(true, wake, true) && this.wake == wake && this.fast == fast
      ensures refcount == 0 && queue == []
    {
      state, this.wake, this.fast := Condition(true, wake, true), wake, fast;
      refcount, queue := 0, [];
    }
  }

  class Message {
    var kind: Kind
    var name: string
    var from: Endpoint?
    var to: Endpoint?
    var wack: bool

    constructor (kind: Kind, name: string, from: Endpoint?, to: Endpoint?, wack: bool)
      ensures Snap(this) == Mail(kind, name, from, to, wack)
    {
      this.kind, this.name, this.from, this.to, this.wack := kind, name, from, to, wack;
    }
  }

  /** The contents of a message: `wack` says that the sender wants a reply even if the receiver goes away. */
  datatype Mail = Mail(kind: Kind, name: string, from: Endpoint?, to: Endpoint?, wack: bool) {
    predicate Owed() {
      kind.Request? && wack
    }

    /** The reply a request is turned around into: same name, back to the sender, no reply wanted. */
    function Turned(code: Verdict): Mail {
      Mail(Reply(code), name, to, from, false)
    }
  }

  ghost function Snap(m: Message): Mail
    reads m
  {
    Mail(m.kind, m.name, m.from, m.to, m.wack)
  }

  datatype Ep = Ep(up: bool, receiving: bool, sending: bool, wake: bool, fast: bool, refs: int, queue: seq<Mail>)

  /** What became of the requests whose senders are owed a reply. */
  datatype Books = Books(accepted: multiset<Mail>, answered: multiset<Mail>, stranded: multiset<Mail>,
                         owned: multiset<Mail>)

  /** `holders` counts the references taken by code outside this layer, such as callback slots. */
  datatype State = State(order: seq<Endpoint>, eps: map<Endpoint, Ep>, holders: multiset<Endpoint>, books: Books)

  // ---- mail in the system ----

  /** How often a message names an endpoint as sender or receiver. */
  function Names(m: Mail, e: Endpoint): nat {
    (if m.from == e then 1 else 0) + (if m.to == e then 1 else 0)
  }

  function Mentions(q: seq<Mail>, e: Endpoint): nat {
    if q == [] then 0 else Names(q[0], e) + Mentions(q[1..], e)
  }

  /** How often a list holds the message m as a request whose sender is owed a reply. */
  function Owing(q: seq<Mail>, m: Mail): nat {
    if q == [] then 0 else (if q[0] == m && m.Owed() then 1 else 0) + Owing(q[1..], m)
  }

  function Owed(q: seq<Mail>): multiset<Mail> {
    if q == [] then multiset{} else (if q[0].Owed() then multiset{q[0]} else multiset{}) + Owed(q[1..])
  }

  /** The work a list of messages can still cause: a request owed a reply counts for itself and for its reply. */
  function Weight(q: seq<Mail>): nat {
    if q == [] then 0 else Work(q[0]) + Weight(q[1..])
  }

  function Work(m: Mail): nat {
    if m.Owed() then 2 else 1
  }

  function AllMail(order: seq<Endpoint>, eps: map<Endpoint, Ep>): seq<Mail>
    requires forall e :: e in order ==> e in eps
  {
    if order == [] then [] else eps[order[0]].queue + AllMail(order[1..], eps)
  }

  ghost predicate NoDup<T>(s: seq<T>) {
    forall i, j :: 0 <= i < j < |s| ==> s[i] != s[j]
  }

  lemma {:induction false} MentionsConcat(a: seq<Mail>, b: seq<Mail>, e: Endpoint)
    ensures Mentions(a + b, e) == Mentions(a, e) + Mentions(b, e)
  {
    if a == [] {
      assert a + b == b;
    } else {
      MentionsConcat(a[1..], b, e);
      assert (a + b)[1..] == a[1..] + b;
    }
  }

  lemma {:induction false} OwingConcat(a: seq<Mail>, b: seq<Mail>, m: Mail)
    ensures Owing(a + b, m) == Owing(a, m) + Owing(b, m)
  {
    if a == [] {
      assert a + b == b;
    } else {
      OwingConcat(a[1..], b, m);
      assert (a + b)[1..] == a[1..] + b;
    }
  }

  lemma {:induction false} WeightConcat(a: seq<Mail>, b: seq<Mail>)
    ensures Weight(a + b) == Weight(a) + Weight(b)
  {
    if a == [] {
      assert a + b == b;
    } else {
      WeightConcat(a[1..], b);
      assert (a + b)[1..] == a[1..] + b;
    }
  }

  lemma {:induction false} OwedCount(q: seq<Mail>, m: Mail)
    ensures Owed(q)[m] == Owing(q, m)
  {
    if q != [] {
      OwedCount(q[1..], m);
    }
  }

  /** A queue that is not touched stays where it is in the mail of the whole system. */
  lemma {:induction false} SameMail(order: seq<Endpoint>, eps: map<Endpoint, Ep>, eps': map<Endpoint, Ep>)
    requires forall e :: e in order ==> e in eps && e in eps' && eps[e].queue == eps'[e].queue
    ensures AllMail(order, eps) == AllMail(order, eps')
  {
    if order != [] {
      SameMail(order[1..], eps, eps');
    }
  }

  /** Changing the queue of one endpoint replaces one segment of the mail of the whole system. */
  lemma {:induction false} SwapMail(order: seq<Endpoint>, eps: map<Endpoint, Ep>, eps': map<Endpoint, Ep>, e: Endpoint)
      returns (a: seq<Mail>, b: seq<Mail>)
    requires e in order && NoDup(order)
    requires forall x :: x in order ==> x in eps && x in eps'
    requires forall x :: x in order && x != e ==> eps[x].queue == eps'[x].queue
    ensures AllMail(order, eps) == a + eps[e].queue + b
    ensures AllMail(order, eps') == a + eps'[e].queue + b
  {
    if order[0] == e {
      SameMail(order[1..], eps, eps');
      a, b := [], AllMail(order[1..], eps);
      assert a + eps[e].queue == eps[e].queue && a + eps'[e].queue == eps'[e].queue;
    } else {
      var a', b' := SwapMail(order[1..], eps, eps', e);
      a, b := eps[order[0]].queue + a', b';
      Associate(eps[order[0]].queue, a', eps[e].queue, b);
      Associate(eps[order[0]].queue, a', eps'[e].queue, b);
    }
  }

  lemma Associate<T>(a: seq<T>, b: seq<T>, c: seq<T>, d: seq<T>)
    ensures a + (b + c + d) == a + b + c + d
  {
  }

  lemma SwapMentions(order: seq<Endpoint>, eps: map<Endpoint, Ep>, eps': map<Endpoint, Ep>, e: Endpoint, x: Endpoint)
    requires e in order && NoDup(order)
    requires forall y :: y in order ==> y in eps && y in eps'
    requires forall y :: y in order && y != e ==> eps[y].queue == eps'[y].queue
    ensures Mentions(AllMail(order, eps'), x) - Mentions(eps'[e].queue, x)
         == Mentions(AllMail(order, eps), x) - Mentions(eps[e].queue, x)
  {
    var a, b := SwapMail(order, eps, eps', e);
    MentionsConcat(a + eps[e].queue, b, x);
    MentionsConcat(a, eps[e].queue, x);
    MentionsConcat(a + eps'[e].queue, b, x);
    MentionsConcat(a, eps'[e].queue, x);
  }

  lemma SwapOwing(order: seq<Endpoint>, eps: map<Endpoint, Ep>, eps': map<Endpoint, Ep>, e: Endpoint, m: Mail)
    requires e in order && NoDup(order)
    requires forall y :: y in order ==> y in eps && y in eps'
    requires forall y :: y in order && y != e ==> eps[y].queue == eps'[y].queue
    ensures Owing(AllMail(order, eps'), m) - Owing(eps'[e].queue, m)
         == Owing(AllMail(order, eps), m) - Owing(eps[e].queue, m)
  {
    var a, b := SwapMail(order, eps, eps', e);
    OwingConcat(a + eps[e].queue, b, m);
    OwingConcat(a, eps[e].queue, m);
    OwingConcat(a + eps'[e].queue, b, m);
    OwingConcat(a, eps'[e].queue, m);
  }

  lemma SwapWeight(order: seq<Endpoint>, eps: map<Endpoint, Ep>, eps': map<Endpoint, Ep>, e: Endpoint)
    requires e in order && NoDup(order)
    requires forall y :: y in order ==> y in eps && y in eps'
    requires forall y :: y in order && y != e ==> eps[y].queue == eps'[y].queue
    ensures Weight(AllMail(order, eps')) - Weight(eps'[e].queue) == Weight(AllMail(order, eps)) - Weight(eps[e].queue)
  {
    var a, b := SwapMail(order, eps, eps', e);
    WeightConcat(a + eps[e].queue, b);
    WeightConcat(a, eps[e].queue);
    WeightConcat(a + eps'[e].queue, b);
    WeightConcat(a, eps'[e].queue);
  }

  /** A message in some queue is part of the mail of the whole system. */
  lemma {:induction false} QueuedCounted(order: seq<Endpoint>, eps: map<Endpoint, Ep>, e: Endpoint, m: Mail,
                                         x: Endpoint)
    requires e in order && (forall y :: y in order ==> y in eps)
    requires m in eps[e].queue && Names(m, x) > 0
    ensures Mentions(AllMail(order, eps), x) > 0
  {
    MentionsConcat(eps[order[0]].queue, AllMail(order[1..], eps), x);
    if order[0] == e {
      MemberCounted(eps[e].queue, m, x);
    } else {
      QueuedCounted(order[1..], eps, e, m, x);
    }
  }

  lemma {:induction false} MemberCounted(q: seq<Mail>, m: Mail, x: Endpoint)
    requires m in q && Names(m, x) > 0
    ensures Mentions(q, x) > 0
  {
    if q[0] != m {
      MemberCounted(q[1..], m, x);
    }
  }
}
