/** The subscriber vectors of a sensor: entries know their own index and leave by swapping with the last. */
module Subscribers {
  import opened Options

  datatype Strategy = OFF | EVENT | PERIOD

  /** The vector after the entry at k has left: the last one takes its place. With an index past the end, as an entry of
    * another vector may have it, the last one itself is what leaves. */
  function SwapOut<T>(v: seq<T>, k: nat): seq<T>
    requires v != []
  {
    var n := |v| - 1;
    if k < n then v[..n][k := v[n]] else v[..n]
  }

  lemma SwapOutMultiset<T>(v: seq<T>, k: nat)
    requires k < |v|
    ensures multiset(v) == multiset(SwapOut(v, k)) + multiset{v[k]}
    ensures SwapOut(v, k)[..k] == v[..k] && multiset(v[k..]) == multiset(SwapOut(v, k)[k..]) + multiset{v[k]}
  {
    SwapOutSum(v, k);
    var n, w := |v| - 1, SwapOut(v, k);
    if k < n {
      assert w[k..] == [v[n]] + v[k + 1..n];
      assert v[k..] == [v[k]] + v[k + 1..n] + [v[n]];
    } else {
      assert w[k..] == [] && v[k..] == [v[k]];
    }
  }

  lemma SwapOutSum<T>(v: seq<T>, k: nat)
    requires k < |v|
    ensures multiset(v) == multiset(SwapOut(v, k)) + multiset{v[k]}
    ensures SwapOut(v, k)[..k] == v[..k]
  {
    var n := |v| - 1;
    assert v == v[..n] + [v[n]];
    if k < n {
      assert v[..n][k] == v[k];
      assert v[k] in multiset(v[..n]);
    }
  }

  /** Whom a broadcast tries that has come to index i of a vector: it goes on to the next index after one that is
    * willing to take the message, stays at the index after one that is not, as that one is deleted, and stops for good
    * at the first entry that is not ready for events. */
  function Tried<T(==)>(v: seq<T>, i: nat, ready: set<T>, willing: set<T>): seq<T>
    decreases |v| - i
  {
    if i >= |v| || v[i] !in ready then []
    else if v[i] in willing then [v[i]] + Tried(v, i + 1, ready, willing)
    else [v[i]] + Tried(SwapOut(v, i), i, ready, willing)
  }

  lemma {:induction false} TriedReady<T>(v: seq<T>, i: nat, ready: set<T>, willing: set<T>)
    ensures forall x :: x in Tried(v, i, ready, willing) ==> x in ready
    decreases |v| - i
  {
    if i < |v| && v[i] in ready {
      if v[i] in willing {
        TriedReady(v, i + 1, ready, willing);
      } else {
        TriedReady(SwapOut(v, i), i, ready, willing);
      }
    }
  }

  lemma {:induction false} TriedAll<T>(v: seq<T>, i: nat, ready: set<T>, willing: set<T>)
    requires i <= |v| && forall x :: x in v[i..] ==> x in ready
    ensures multiset(Tried(v, i, ready, willing)) == multiset(v[i..])
    decreases |v| - i
  {
    if i < |v| {
      assert v[i..] == [v[i]] + v[i + 1..];
      if v[i] in willing {
        TriedAll(v, i + 1, ready, willing);
      } else {
        var w := SwapOut(v, i);
        SwapOutMultiset(v, i);
        assert forall x :: x in w[i..] ==> x in multiset(w[i..]) && x in multiset(v[i..]);
        TriedAll(w, i, ready, willing);
      }
    }
  }

  /** A broadcast tries every entry if and only if all are ready for events. */
  lemma TriesAll<T>(v: seq<T>, ready: set<T>, willing: set<T>)
    ensures multiset(Tried(v, 0, ready, willing)) == multiset(v) <==> forall x :: x in v ==> x in ready
  {
    assert v[0..] == v;
    TriedReady(v, 0, ready, willing);
    if forall x :: x in v ==> x in ready {
      TriedAll(v, 0, ready, willing);
    } else {
      var x :| x in v && x !in ready;
      assert x in multiset(v) && x !in multiset(Tried(v, 0, ready, willing));
    }
  }

  /** If none before the first entry that is not ready refuses, exactly those before it are tried. */
  lemma {:induction false} TriesBefore<T>(v: seq<T>, i: nat, first: nat, ready: set<T>, willing: set<T>)
    requires i <= first < |v| && v[first] !in ready
    requires forall j :: i <= j < first ==> v[j] in ready && v[j] in willing
    ensures Tried(v, i, ready, willing) == v[i..first]
    decreases first - i
  {
    if i < first {
      TriesBefore(v, i + 1, first, ready, willing);
      assert v[i..first] == [v[i]] + v[i + 1..first];
    }
  }

  /** Otherwise it may be fewer: the entry that is not ready takes the place of one that refuses, and b is never
    * tried. */
  lemma Overtaken<T>(a: T, b: T, c: T)
    requires a != b && b != c && c != a
    ensures Tried([a, b, c], 0, {a, b}, {b}) == [a]
  {
    assert SwapOut([a, b, c], 0) == [c, b];
    assert Tried([c, b], 0, {a, b}, {b}) == [];
  }

  /** What a broadcast starts from: the vector, the endpoints in it, and who is ready and willing. */
  datatype Start<!S, P> = Start(before: seq<S>, peers: map<S, P>, ready: set<S>, willing: set<S>, agreed: bool)

  class Subscriber<P> {
    var index: nat
    var strategy: Strategy
    var endpoint: Option<P>

    constructor (endpoint: P)
      ensures strategy == OFF && this.endpoint == Some(endpoint)
    {
      index, strategy, this.endpoint := 0, OFF, Some(endpoint);
    }
  }

  /** katcp_wit, for endpoints of type P. */
  class Wit<P(==)> {
    var events: seq<Subscriber<P>>
    var periods: seq<Subscriber<P>>
    ghost var owned: set<Subscriber<P>>

    constructor ()
      ensures Consistent() && events == [] && periods == [] && owned == {}
    {
      events, periods, owned := [], [], {};
    }

    /** Every entry of either vector knows its index and has an endpoint, and no subscriber is in both. */
    ghost predicate Indexed()
      reads this, owned
    {
      && (forall i :: 0 <= i < |events| ==> events[i] in owned && events[i].index == i && events[i].endpoint.Some?)
      && (forall i :: 0 <= i < |periods| ==> periods[i] in owned && periods[i].index == i && periods[i].endpoint.Some?)
      && (forall i, j :: 0 <= i < |events| && 0 <= j < |periods| ==> events[i] != periods[j])
    }

    /** And its strategy is that of its vector, so that deleting it looks in the right one. */
    ghost predicate Consistent()
      reads this, owned
    {
      && Indexed()
      && (forall i :: 0 <= i < |events| ==> events[i].strategy == EVENT)
      && (forall i :: 0 <= i < |periods| ==> periods[i].strategy == PERIOD)
    }

    /** create_subscribe_katcp: the strategy is set only later, by the caller. */
    method Create(peer: P, strategy: Strategy) returns (sub: Subscriber?<P>)
      requires Indexed()
      modifies this
      ensures Indexed() && fresh(owned - old(owned)) && old(owned) <= owned
      ensures strategy == OFF ==> sub == null && events == old(events) && periods == old(periods)
      ensures strategy != OFF ==> sub != null && fresh(sub) && sub.strategy == OFF && sub.endpoint == Some(peer)
      ensures strategy == EVENT ==> events == old(events) + [sub] && periods == old(periods)
      ensures strategy == PERIOD ==> periods == old(periods) + [sub] && events == old(events)
    {
      var s := new Subscriber(peer);
      match strategy {
        case EVENT =>
          s.index := |events|;
          events := events + [s];
        case PERIOD =>
          s.index := |periods|;
          periods := periods + [s];
        case OFF =>
          return null;
      }
      owned := owned + {s};
      return s;
    }

    /** find_event_subscribe_katcp and find_period_subscribe_katcp */
    static method FindIn(v: seq<Subscriber<P>>, peer: P) returns (sub: Subscriber?<P>)
      ensures sub == null ==> forall s :: s in v ==> s.endpoint != Some(peer)
      ensures sub != null ==> sub in v && sub.endpoint == Some(peer)
    {
      for i := 0 to |v|
        invariant forall j :: 0 <= j < i ==> v[j].endpoint != Some(peer)
      {
        if v[i].endpoint == Some(peer) {
          return v[i];
        }
      }
      return null;
    }

    ghost predicate Subscribed(v: seq<Subscriber<P>>, peer: P)
      reads v
    {
      exists s :: s in v && s.endpoint == Some(peer)
    }

    /** find_subscribe_katcp: event subscribers first. */
    method Find(peer: P) returns (sub: Subscriber?<P>)
      ensures sub == null <==> !Subscribed(events, peer) && !Subscribed(periods, peer)
      ensures sub != null ==>
        sub.endpoint == Some(peer) && sub in (if Subscribed(events, peer) then events else periods)
    {
      sub := FindIn(events, peer);
      if sub == null {
        sub := FindIn(periods, peer);
      }
    }

    /** destroy_subscribe_katcp: the reference to the endpoint is given back. */
    method Destroy(sub: Subscriber<P>) returns (forgotten: Option<P>)
      modifies sub`endpoint, sub`strategy
      ensures forgotten == old(sub.endpoint) && sub.endpoint == None && sub.strategy == OFF
    {
      forgotten := sub.endpoint;
      sub.endpoint := None;
      sub.strategy := OFF;
    }

    /** The strategy of an entry leads to the vector it is in. */
    ghost predicate Placed(sub: Subscriber<P>)
      reads this, sub
    {
      (sub.strategy == EVENT ==> sub in events) && (sub.strategy == PERIOD ==> sub in periods)
    }

    /** delete_subscribe_katcp for the event strategy: the index of the entry is taken for one of the event vector,
      * whichever vector it is in. On an empty vector the size wraps around and memory past the end is used. */
    method DeleteEvent(sub: Subscriber<P>) returns (forgotten: Option<P>, lost: bool)
      requires Indexed() && (sub in events || sub in periods)
      modifies this`events, owned`index, sub`endpoint, sub`strategy
      ensures lost <==> old(events) == []
      ensures !lost ==>
        events == SwapOut(old(events), old(sub.index)) && forgotten == old(sub.endpoint) && sub.endpoint == None
      ensures !lost ==> (Indexed() <==> sub in old(events))
      ensures old(Consistent()) && sub in old(events) ==> Consistent()
      ensures sub in old(events) ==>
        sub !in events && old(sub.index) < |old(events)| && old(events)[old(sub.index)] == sub
    {
      if events == [] {
        return None, true;
      }
      var n := |events| - 1;
      var fixup := events[n];
      var k := sub.index;
      ghost var found := sub in events;
      events := SwapOutOf(events, k);
      if k < n {
        fixup.index := k;
      }
      forgotten := Destroy(sub);
      lost := false;
    }

    /** The same for the period strategy; the timer of the entry is not modelled. */
    method DeletePeriod(sub: Subscriber<P>) returns (forgotten: Option<P>, lost: bool)
      requires Indexed() && (sub in events || sub in periods)
      modifies this`periods, owned`index, sub`endpoint, sub`strategy
      ensures lost <==> old(periods) == []
      ensures !lost ==>
        periods == SwapOut(old(periods), old(sub.index)) && forgotten == old(sub.endpoint) && sub.endpoint == None
      ensures !lost ==> (Indexed() <==> sub in old(periods))
      ensures old(Consistent()) && sub in old(periods) ==> Consistent()
      ensures sub in old(periods) ==>
        sub !in periods && old(sub.index) < |old(periods)| && old(periods)[old(sub.index)] == sub
    {
      if periods == [] {
        return None, true;
      }
      var n := |periods| - 1;
      var fixup := periods[n];
      var k := sub.index;
      periods := SwapOutOf(periods, k);
      if k < n {
        fixup.index := k;
      }
      forgotten := Destroy(sub);
      lost := false;
    }

    /** What a deletion comes to. The vector that the strategy names loses the entry at the index that is kept in sub,
      * which is sub itself exactly if it is in that vector; if it is in the other one, it stays there without an
      * endpoint. */
    twostate predicate Deleted(sub: Subscriber?<P>, result: int, new forgotten: Option<P>, lost: bool)
      reads this, owned, sub
    {
      if sub == null || old(sub.strategy) == OFF then
        && result == -1 && !lost && forgotten == None && events == old(events) && periods == old(periods) && Indexed()
        && (forall s :: s in old(owned) && s in owned ==>
          s.strategy == old(s.strategy) && s.endpoint == old(s.endpoint))
      else
        var v := old(if sub.strategy == EVENT then events else periods);
        && result == 0 && (lost <==> v == [])
        && (forall s :: s in old(owned) && s in owned && s != sub ==>
             s.strategy == old(s.strategy) && s.endpoint == old(s.endpoint))
        && (v != [] ==>
             && forgotten == old(sub.endpoint) && sub.endpoint == None && (Indexed() <==> old(Placed(sub)))
             && (events == if old(sub.strategy) == EVENT then SwapOut(v, old(sub.index)) else old(events))
             && (periods == if old(sub.strategy) == PERIOD then SwapOut(v, old(sub.index)) else old(periods))
             && (old(Placed(sub)) ==>
                  sub !in events && sub !in periods && old(sub.index) < |v| && v[old(sub.index)] == sub))
    }

    /** delete_subscribe_katcp: the strategy of the entry says in which vector it is looked for. */
    method Delete(sub: Subscriber?<P>) returns (result: int, forgotten: Option<P>, lost: bool)
      requires Indexed() && (sub != null ==> sub in events || sub in periods)
      modifies this`events, this`periods, owned`index, owned`endpoint, owned`strategy
      ensures Deleted(sub, result, forgotten, lost)
      ensures old(Consistent()) ==> !lost && Consistent() && (result == -1 <==> sub == null)
    {
      if sub == null {
        return -1, None, false;
      }
      result := 0;
      match sub.strategy
      case EVENT => forgotten, lost := DeleteEvent(sub);
      case PERIOD => forgotten, lost := DeletePeriod(sub);
      case OFF => return -1, None, false;
    }

    static method SwapOutOf(v: seq<Subscriber<P>>, k: nat) returns (w: seq<Subscriber<P>>)
      requires v != []
      ensures w == SwapOut(v, k)
    {
      var n := |v| - 1;
      w := v[..n];
      if k < n {
        w := w[k := v[n]];
      }
    }

    /** The entries of the event vector that are there for events, as all should be. */
    ghost function Ready(): set<Subscriber<P>>
      requires Indexed()
      reads this, owned
    {
      set s | s in events && s.strategy == EVENT
    }

    /** Those whose endpoint takes a message. */
    ghost function Willing(accepts: P -> bool): set<Subscriber<P>>
      requires Indexed()
      reads this, owned
    {
      set s | s in events && accepts(s.endpoint.value)
    }

    ghost predicate AllReady()
      requires Indexed()
      reads this, owned
    {
      forall s :: s in events ==> s in Ready()
    }

    /** The accounts of a broadcast that has come to index i of the vector v. */
    ghost predicate Counted(b: Start<Subscriber<P>, P>, v: seq<Subscriber<P>>, i: nat, tried: seq<Subscriber<P>>,
                            gone: seq<Subscriber<P>>)
    {
      && i <= |v| && (forall j :: 0 <= j < i ==> v[j] in b.willing) && (forall s :: s in v ==> s in b.peers)
      && multiset(tried) + multiset(v[i..]) == multiset(b.before)
      && multiset(v[..i]) + multiset(gone) == multiset(tried)
      && tried + Tried(v, i, b.ready, b.willing) == Tried(b.before, 0, b.ready, b.willing)
    }

    /** A broadcast that has come to index i. */
    ghost predicate Broadcasting(b: Start<Subscriber<P>, P>, accepts: P -> bool, i: nat, tried: seq<Subscriber<P>>,
                                 gone: seq<Subscriber<P>>, forgotten: seq<P>)
      reads this, owned, gone
    {
      && Indexed() && (b.agreed ==> Consistent()) && Counted(b, events, i, tried, gone) && |gone| == |forgotten|
      && b.willing == (set s | s in b.peers && accepts(b.peers[s]))
      && (forall s :: s in events ==> s.endpoint == Some(b.peers[s]) && (s.strategy == EVENT <==> s in b.ready))
      && (forall j :: 0 <= j < |gone| ==> gone[j] in b.peers && gone[j].endpoint == None)
      && (forall j :: 0 <= j < |gone| ==> forgotten[j] == b.peers[gone[j]] && !accepts(forgotten[j]))
    }

    lemma Kept<T>(v: seq<T>, i: nat)
      requires i < |v|
      ensures multiset(v[i..]) == multiset{v[i]} + multiset(v[i + 1..])
      ensures multiset(v[..i + 1]) == multiset(v[..i]) + multiset{v[i]}
    {
      assert v[i..] == [v[i]] + v[i + 1..] && v[..i + 1] == v[..i] + [v[i]];
    }

    lemma Started(b: Start<Subscriber<P>, P>, accepts: P -> bool)
      requires Indexed() && b.before == events && b.peers == (map s | s in events :: s.endpoint.value)
      requires b.ready == Ready() && b.willing == Willing(accepts) && (b.agreed <==> Consistent())
      ensures Broadcasting(b, accepts, 0, [], [], [])
    {
      assert events[0..] == events && events[..0] == [];
      assert forall s :: s in events ==> s.endpoint.Some?;
      assert b.willing == set s | s in b.peers && accepts(b.peers[s]);
      var all := Tried(events, 0, b.ready, b.willing);
      assert [] + all == all;
    }

    /** One turn of the loop for a subscriber that stays. */
    lemma Accepted(b: Start<Subscriber<P>, P>, accepts: P -> bool, i: nat, tried: seq<Subscriber<P>>,
                   gone: seq<Subscriber<P>>, forgotten: seq<P>)
      requires Broadcasting(b, accepts, i, tried, gone, forgotten) && i < |events|
      requires events[i] in b.ready && events[i] in b.willing
      ensures Broadcasting(b, accepts, i + 1, tried + [events[i]], gone, forgotten)
    {
      CountedOn(b, events, i, tried, gone);
    }

    /** The loop is at an entry: whether it is ready and willing. */
    lemma Trying(b: Start<Subscriber<P>, P>, accepts: P -> bool, i: nat, tried: seq<Subscriber<P>>,
                 gone: seq<Subscriber<P>>, forgotten: seq<P>)
      requires Broadcasting(b, accepts, i, tried, gone, forgotten) && i < |events|
      ensures var s := events[i];
        s.endpoint.Some? && (s.strategy == EVENT <==> s in b.ready) && (accepts(s.endpoint.value) <==> s in b.willing)
    {
      hide Tried;
    }

    lemma CountedOut(b: Start<Subscriber<P>, P>, v: seq<Subscriber<P>>, i: nat, tried: seq<Subscriber<P>>,
                     gone: seq<Subscriber<P>>)
      requires Counted(b, v, i, tried, gone) && i < |v| && v[i] in b.ready && v[i] !in b.willing
      ensures Counted(b, SwapOut(v, i), i, tried + [v[i]], gone + [v[i]])
      ensures forall s :: s in SwapOut(v, i) ==> s in v
    {
      var w, sub := SwapOut(v, i), v[i];
      var rest := Tried(w, i, b.ready, b.willing);
      assert (tried + [sub]) + rest == tried + ([sub] + rest);
      hide Tried;
      SwapOutMultiset(v, i);
      assert |w| == |v| - 1;
      hide SwapOut;
      Bags(multiset(v[..i]), multiset(v[i..]), multiset(w[i..]), multiset(tried), multiset(gone), sub);
      assert multiset(tried + [sub]) == multiset(tried) + multiset{sub};
      assert multiset(gone + [sub]) == multiset(gone) + multiset{sub};
      assert forall j :: 0 <= j < i ==> w[j] == w[..i][j] == v[j];
      forall s | s in w
        ensures s in v
      {
        assert s in multiset(w);
        assert s in multiset(v);
      }
    }

    /** One element goes from the rest to those tried and gone. */
    lemma Bags<T>(stay: multiset<T>, rest: multiset<T>, less: multiset<T>, tried: multiset<T>, gone: multiset<T>, x: T)
      requires stay + gone == tried && rest == less + multiset{x}
      ensures (tried + multiset{x}) + less == tried + rest && stay + (gone + multiset{x}) == tried + multiset{x}
    {
    }

    lemma CountedOn(b: Start<Subscriber<P>, P>, v: seq<Subscriber<P>>, i: nat, tried: seq<Subscriber<P>>,
                    gone: seq<Subscriber<P>>)
      requires Counted(b, v, i, tried, gone) && i < |v| && v[i] in b.ready && v[i] in b.willing
      ensures Counted(b, v, i + 1, tried + [v[i]], gone)
    {
      Kept(v, i);
      var rest := Tried(v, i + 1, b.ready, b.willing);
      assert (tried + [v[i]]) + rest == tried + ([v[i]] + rest);
    }

    /** One turn of the loop for a subscriber whose endpoint refuses: the index stays, as another entry has moved
      * there. */
    method Refuse(ghost b: Start<Subscriber<P>, P>, accepts: P -> bool, i: nat, ghost tried: seq<Subscriber<P>>,
                  ghost gone: seq<Subscriber<P>>, forgotten: seq<P>)
      returns (f: seq<P>)
      requires Broadcasting(b, accepts, i, tried, gone, forgotten) && i < |events|
      requires events[i] in b.ready && events[i] !in b.willing
      modifies this`events, owned`index, owned`endpoint, owned`strategy
      ensures var sub := old(events)[i];
        Broadcasting(b, accepts, i, tried + [sub], gone + [sub], f)
      ensures |events| == |old(events)| - 1 && periods == old(periods)
    {
      var sub := events[i];
      ghost var v := events;
      CountedOut(b, v, i, tried, gone);
      hide Counted;
      var p, lost := DeleteEvent(sub);
      hide SwapOut;
      f := forgotten + [p.value];
    }

    /** The loop of the broadcast, up to the end of the vector or to an entry that is not ready for events. */
    method TryAll(ghost b: Start<Subscriber<P>, P>, accepts: P -> bool)
      returns (i: nat, tried: seq<Subscriber<P>>, forgotten: seq<P>, ghost gone: seq<Subscriber<P>>)
      requires Broadcasting(b, accepts, 0, [], [], [])
      modifies this`events, owned`index, owned`endpoint, owned`strategy
      ensures Broadcasting(b, accepts, i, tried, gone, forgotten) && periods == old(periods)
      ensures i == |events| || (i < |events| && events[i] !in b.ready)
    {
      i, tried, forgotten, gone := 0, [], [], [];
      hide Broadcasting, Tried;
      while i < |events|
        invariant 0 <= i <= |events| && periods == old(periods) && Broadcasting(b, accepts, i, tried, gone, forgotten)
        decreases |events| - i
      {
        var sub := events[i];
        Trying(b, accepts, i, tried, gone, forgotten);
        if sub.strategy != EVENT {
          return;
        }
        if accepts(sub.endpoint.value) {
          Accepted(b, accepts, i, tried, gone, forgotten);
          i := i + 1;
        } else {
          forgotten := Refuse(b, accepts, i, tried, gone, forgotten);
          gone := gone + [sub];
        }
        tried := tried + [sub];
      }
    }

    /** broadcast_event_subscribe_katcp. `accepts` says whether a send to an endpoint succeeds. It goes through if all
      * entries of the vector are there for events; then every subscriber is tried once. In any case those tried and
      * refused are deleted, each giving back its own endpoint once, and all others stay. */
    method Broadcast(accepts: P -> bool)
      returns (result: int, tried: seq<Subscriber<P>>, forgotten: seq<P>, ghost gone: seq<Subscriber<P>>)
      requires Indexed()
      modifies this`events, owned`index, owned`endpoint, owned`strategy
      ensures Indexed() && (old(Consistent()) ==> Consistent() && old(AllReady())) && periods == old(periods)
      ensures result == if old(AllReady()) then |events| else -1
      ensures tried == Tried(old(events), 0, old(Ready()), old(Willing(accepts)))
      ensures old(AllReady()) <==> multiset(tried) == multiset(old(events))
      ensures |events| + |forgotten| == |old(events)|
      ensures forall s :: s in old(events) ==> (s in events <==> s !in tried || accepts(old(s.endpoint).value))
      ensures forall s :: s in events ==> s in old(events) && s.endpoint == old(s.endpoint)
      ensures forall s :: s in old(events) && s !in events ==> s.endpoint == None && old(s.endpoint).value in forgotten
      ensures multiset(events) + multiset(gone) == multiset(old(events)) && |gone| == |forgotten|
      ensures forall j :: 0 <= j < |gone| ==> gone[j] in old(events) && Some(forgotten[j]) == old(gone[j].endpoint)
    {
      ghost var b := Start(events, map s | s in events :: s.endpoint.value, Ready(), Willing(accepts), Consistent());
      Started(b, accepts);
      assert forall s :: s in b.before ==> s in b.peers && s.endpoint == Some(b.peers[s]);
      assert AllReady() <==> forall s :: s in b.before ==> s in b.ready;
      assert Consistent() ==> AllReady();
      hide Broadcasting, Tried, Consistent;
      var i;
      i, tried, forgotten, gone := TryAll(b, accepts);
      result := if i == |events| then |events| else -1;
      Concluded(b, accepts, i, tried, gone, forgotten);
      TriesAll(b.before, b.ready, b.willing);
    }

    /** Those tried are the ones that stayed before i and the ones that are gone; all others are the ones from i on. */
    lemma Sums(before: seq<Subscriber<P>>, v: seq<Subscriber<P>>, i: nat, tried: seq<Subscriber<P>>,
               gone: seq<Subscriber<P>>)
      requires i <= |v| && multiset(tried) + multiset(v[i..]) == multiset(before)
      requires multiset(v[..i]) + multiset(gone) == multiset(tried)
      ensures multiset(v) + multiset(gone) == multiset(before) && |v| + |gone| == |before|
      ensures forall s :: s in v ==> s in before && (s in tried ==> s in v[i..] || s in v[..i])
      ensures forall s :: s in before ==> s in v || (s in gone && s in tried)
      ensures forall s :: s in tried ==> s in before && (s in v[..i] || s in gone)
      ensures forall j :: 0 <= j < |gone| ==> gone[j] in before
      ensures i == |v| ==> forall s :: s in before ==> s in tried
    {
      assert v == v[..i] + v[i..];
      assert |multiset(v) + multiset(gone)| == |multiset(before)|;
      forall s
        ensures s in before <==> s in v || s in gone
        ensures s in tried <==> s in v[..i] || s in gone
      {
        assert s in before <==> s in multiset(before);
        assert s in tried <==> s in multiset(tried);
        assert s in v <==> s in multiset(v);
        assert s in gone <==> s in multiset(gone);
        assert s in v[..i] <==> s in multiset(v[..i]);
      }
    }

    lemma Concluded(b: Start<Subscriber<P>, P>, accepts: P -> bool, i: nat, tried: seq<Subscriber<P>>,
                    gone: seq<Subscriber<P>>, forgotten: seq<P>)
      requires Broadcasting(b, accepts, i, tried, gone, forgotten)
      requires i == |events| || (i < |events| && events[i] !in b.ready)
      ensures Indexed() && (b.agreed ==> Consistent())
      ensures forall s :: s in events ==> s in b.peers && s.endpoint == Some(b.peers[s])
      ensures tried == Tried(b.before, 0, b.ready, b.willing)
      ensures i == |events| <==> forall s :: s in b.before ==> s in b.ready
      ensures |events| + |forgotten| == |b.before| && |gone| == |forgotten|
      ensures multiset(events) + multiset(gone) == multiset(b.before)
      ensures forall s :: s in events ==> s in b.before && (s !in tried || accepts(b.peers[s]))
      ensures forall s :: s in b.before && s !in events ==>
        s in tried && s in b.peers && s.endpoint == None && !accepts(b.peers[s]) && b.peers[s] in forgotten
      ensures forall j :: 0 <= j < |gone| ==>
        gone[j] in b.before && gone[j] in b.peers && forgotten[j] == b.peers[gone[j]]
    {
      hide Consistent;
      Sums(b.before, events, i, tried, gone);
      TriedReady(b.before, 0, b.ready, b.willing);
      assert i == |events| ==> Tried(events, i, b.ready, b.willing) == [];
      assert i < |events| && events[i] !in b.ready ==> Tried(events, i, b.ready, b.willing) == [];
      assert tried + [] == tried;
      hide Tried;
      forall s | s in b.before && s !in events
        ensures s in tried && s in b.peers && s.endpoint == None && !accepts(b.peers[s]) && b.peers[s] in forgotten
      {
        assert s in gone && s in tried;
      }
    }

    /** monitor_event_variable_katcp: find or create the subscriber, then set its strategy. It keeps the vectors
      * consistent unless the client is subscribed by period only: then the period entry is turned into one for events
      * where it is. */
    method MonitorEvent(peer: P) returns (ghost sub: Subscriber<P>)
      requires Indexed()
      modifies this, owned`strategy
      ensures Indexed() && fresh(owned - old(owned)) && old(owned) <= owned
      ensures old(Consistent()) ==> (Consistent() <==> old(Subscribed(events, peer) || !Subscribed(periods, peer)))
      ensures sub.endpoint == Some(peer) && sub.strategy == EVENT && Others(sub)
      ensures periods == old(periods)
      ensures if old(Subscribed(events, peer)) then events == old(events) && sub in events
              else if old(Subscribed(periods, peer)) then events == old(events) && sub in periods
              else fresh(sub) && events == old(events) + [sub]
    {
      var s := Find(peer);
      if s == null {
        s := Create(peer, EVENT);
      }
      s.strategy := EVENT;
      sub := s;
    }

    /** Every other entry is as it was. */
    twostate predicate Others(new sub: Subscriber<P>)
      reads this, owned
    {
      forall s :: s in old(events) + old(periods) && s != sub ==> s in owned && unchanged(s)
    }

    /** monitor_period_variable_katcp without its timer: the other way round, a client that is subscribed by event has
      * its entry turned into one by period in the event vector. */
    method MonitorPeriod(peer: P) returns (ghost sub: Subscriber<P>)
      requires Indexed()
      modifies this, owned`strategy
      ensures Indexed() && fresh(owned - old(owned)) && old(owned) <= owned
      ensures old(Consistent()) ==> (Consistent() <==> old(!Subscribed(events, peer)))
      ensures sub.endpoint == Some(peer) && sub.strategy == PERIOD && Others(sub)
      ensures events == old(events)
      ensures if old(Subscribed(events, peer)) then periods == old(periods) && sub in events
              else if old(Subscribed(periods, peer)) then periods == old(periods) && sub in periods
              else fresh(sub) && periods == old(periods) + [sub]
    {
      var s := Find(peer);
      if s == null {
        s := Create(peer, PERIOD);
      }
      s.strategy := PERIOD;
      sub := s;
    }

    /** monitor_period_variable_katcp when the timer cannot be registered: the entry found or created is to be deleted
      * again. A new one has no strategy yet, so it cannot be deleted and stays in the period vector. */
    method MonitorPeriodFails(peer: P) returns (result: int, forgotten: Option<P>)
      requires Consistent()
      modifies this, owned`index, owned`endpoint, owned`strategy
      ensures Indexed() && result == -1
      ensures Consistent() <==> old(Subscribed(events, peer) || Subscribed(periods, peer))
      ensures if old(Subscribed(events, peer)) then
          |events| == |old(events)| - 1 && periods == old(periods) && forgotten == Some(peer)
        else if old(Subscribed(periods, peer)) then
          |periods| == |old(periods)| - 1 && events == old(events) && forgotten == Some(peer)
        else
          events == old(events) && |periods| == |old(periods)| + 1 && periods[..|old(periods)|] == old(periods)
          && periods[|old(periods)|].strategy == OFF && forgotten == None
    {
      var s := Find(peer);
      if s == null {
        s := Create(peer, PERIOD);
        assert s == periods[|old(periods)|];
      }
      var lost;
      result, forgotten, lost := Delete(s);
      result := -1;
    }

    /** forget_event_variable_katcp: the entry is looked for in the event vector, but deleted by its strategy. */
    method ForgetEvent(peer: P) returns (result: int, forgotten: Option<P>, lost: bool, ghost sub: Subscriber?<P>)
      requires Indexed()
      modifies this`events, this`periods, owned`index, owned`endpoint, owned`strategy
      ensures
        if old(Subscribed(events, peer)) then
          sub in old(events) && old(sub.endpoint) == Some(peer) && Deleted(sub, result, forgotten, lost)
        else
          result == 1 && !lost && forgotten == None && Indexed() && events == old(events) && periods == old(periods)
      ensures old(Consistent() && Subscribed(events, peer)) ==>
        !lost && Consistent() && result == 0 && |events| == |old(events)| - 1 && periods == old(periods)
    {
      var s := FindIn(events, peer);
      sub := s;
      if s == null {
        return 1, None, false, s;
      }
      result, forgotten, lost := Delete(s);
    }

    /** forget_period_variable_katcp */
    method ForgetPeriod(peer: P) returns (result: int, forgotten: Option<P>, lost: bool, ghost sub: Subscriber?<P>)
      requires Indexed()
      modifies this`events, this`periods, owned`index, owned`endpoint, owned`strategy
      ensures
        if old(Subscribed(periods, peer)) then
          sub in old(periods) && old(sub.endpoint) == Some(peer) && Deleted(sub, result, forgotten, lost)
        else
          result == 1 && !lost && forgotten == None && Indexed() && events == old(events) && periods == old(periods)
      ensures old(Consistent() && Subscribed(periods, peer)) ==>
        !lost && Consistent() && result == 0 && |periods| == |old(periods)| - 1 && events == old(events)
    {
      var s := FindIn(periods, peer);
      sub := s;
      if s == null {
        return 1, None, false, s;
      }
      result, forgotten, lost := Delete(s);
    }
  }

  /** The states in which vectors and strategies disagree are reached by monitoring a sensor in two ways: by period and
    * then by event. Forgetting the period then looks for the entry in the empty event vector, whose size wraps
    * around. */
  method PeriodThenEvent<P(==)>(peer: P) returns (w: Wit<P>, lost: bool)
    ensures lost
  {
    w := new Wit();
    assert !w.Subscribed(w.events, peer) && !w.Subscribed(w.periods, peer);
    ghost var sub := w.MonitorPeriod(peer);
    assert sub in w.periods && w.Subscribed(w.periods, peer) && !w.Subscribed(w.events, peer);
    sub := w.MonitorEvent(peer);
    assert w.Indexed() && !w.Consistent() && w.Subscribed(w.periods, peer) && w.events == [];
    var result, forgotten;
    result, forgotten, lost, sub := w.ForgetPeriod(peer);
  }

  /** A client monitored by event, or by period, and another one by event. */
  method Both<P(==)>(peer: P, other: P, strategy: Strategy)
    returns (w: Wit<P>, ghost a: Subscriber<P>, ghost b: Subscriber<P>)
    requires peer != other && strategy != OFF
    ensures fresh(w) && fresh(w.owned) && w.Indexed() && a.endpoint == Some(peer) && b.endpoint == Some(other)
    ensures b.strategy == EVENT && if strategy == EVENT then w.events == [a, b] && w.periods == []
            else w.events == [b] && w.periods == [a]
  {
    w := new Wit();
    assert !w.Subscribed(w.events, peer) && !w.Subscribed(w.periods, peer);
    if strategy == EVENT {
      a := w.MonitorEvent(peer);
    } else {
      a := w.MonitorPeriod(peer);
    }
    assert !w.Subscribed(w.events, other) && !w.Subscribed(w.periods, other);
    b := w.MonitorEvent(other);
  }

  /** With another client in the event vector, it is that client's entry that goes: it is not monitored any more. */
  method ForgetsAnother<P(==)>(peer: P, other: P) returns (w: Wit<P>, result: int)
    requires peer != other
    ensures result == 0 && !w.Subscribed(w.events, other) && !w.Subscribed(w.periods, other) && !w.Indexed()
  {
    ghost var a, b, sub;
    w, a, b := Both(peer, other, PERIOD);
    assert a in w.periods && w.Subscribed(w.periods, peer) && !w.Subscribed(w.events, peer);
    sub := w.MonitorEvent(peer);
    assert w.periods == [a] && w.events == [b];
    var forgotten, lost;
    result, forgotten, lost, sub := w.ForgetPeriod(peer);
  }

  /** A client that is monitored by event and then by period ends every broadcast where it stands: one behind it, which
    * would take the message, is not even tried. */
  method EventThenPeriod<P(==)>(peer: P, other: P, accepts: P -> bool)
    returns (w: Wit<P>, result: int, tried: seq<Subscriber<P>>)
    requires peer != other
    ensures result == -1 && tried == [] && w.Subscribed(w.events, other)
  {
    ghost var a, b, sub;
    w, a, b := Both(peer, other, EVENT);
    assert a in w.events && w.Subscribed(w.events, peer);
    sub := w.MonitorPeriod(peer);
    assert w.events[0] == a && w.events[1] == b && a !in w.Ready() && !w.AllReady();
    assert b.endpoint == Some(other);
    var forgotten;
    ghost var gone;
    result, tried, forgotten, gone := w.Broadcast(accepts);
    assert b in w.events;
  }
}
