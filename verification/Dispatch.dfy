// Panic-contained fan-out: one packet or a burst of packets to every subscriber of
// a source, then the panicked ones are quarantined.
//
// A handler is known by when it panics: a function of the packets it has been
// handed so far and the next one. The subscriber map is walked in any order.
module Dispatch {

  type Panics<!P> = (seq<P>, P) -> bool

  datatype Fan<!I, !P> = Fan(subs: map<I, Panics<P>>, got: map<I, seq<P>>)

  function Got<I, P>(got: map<I, seq<P>>, id: I): seq<P> {
    if id in got then got[id] else []
  }

  /** The handler gets through all of `pkts` without panicking. */
  predicate Survives<P>(h: Panics<P>, before: seq<P>, pkts: seq<P>)
    decreases |pkts|, 1
  {
    pkts == [] ||
    (var n := |pkts| - 1; Survives(h, before, pkts[..n]) && !h(Fed(h, before, pkts[..n]), pkts[n]))
  }

  /** What the handler has been handed after a burst: nothing past a panic. */
  function Fed<P>(h: Panics<P>, before: seq<P>, pkts: seq<P>): seq<P>
    decreases |pkts|, 0
  {
    if pkts == [] then before
    else
      var n := |pkts| - 1;
      if Survives(h, before, pkts[..n]) then Fed(h, before, pkts[..n]) + [pkts[n]] else Fed(h, before, pkts[..n])
  }

  /** Deliveries once the subscribers in `done` have had their burst. */
  function Handed<I, P>(f: Fan<I, P>, pkts: seq<P>, done: set<I>): map<I, seq<P>>
    requires done <= f.subs.Keys
  {
    map id | id in f.got.Keys + done ::
      if id in done then Fed(f.subs[id], Got(f.got, id), pkts) else f.got[id]
  }

  lemma HandedNext<I, P>(f: Fan<I, P>, pkts: seq<P>, done: set<I>, id: I)
    requires done <= f.subs.Keys && id in f.subs && id !in done
    ensures Got(Handed(f, pkts, done), id) == Got(f.got, id)
    ensures Handed(f, pkts, done + {id}) == Handed(f, pkts, done)[id := Fed(f.subs[id], Got(f.got, id), pkts)]
  {
  }

  /** A burst to everyone, then quarantine. */
  function Burst<I, P>(f: Fan<I, P>, pkts: seq<P>): Fan<I, P> {
    Fan(map id | id in f.subs && Survives(f.subs[id], Got(f.got, id), pkts) :: f.subs[id],
        Handed(f, pkts, f.subs.Keys))
  }

  /** What a burst means for one subscriber, whoever else is subscribed. */
  lemma BurstAt<I, P>(f: Fan<I, P>, pkts: seq<P>, id: I)
    ensures var b := Burst(f, pkts);
            && (id in b.subs <==> id in f.subs && Survives(f.subs[id], Got(f.got, id), pkts))
            && (id in b.subs ==> b.subs[id] == f.subs[id])
            && (id in b.got <==> id in f.subs || id in f.got)
            && Got(b.got, id) == if id in f.subs then Fed(f.subs[id], Got(f.got, id), pkts) else Got(f.got, id)
  {
  }

  /** What can happen to a source's subscribers. */
  datatype Event<!I, !P> = Fanned(pkts: seq<P>) | Join(id: I, h: Panics<P>) | Leave(id: I)

  function After<I, P>(f: Fan<I, P>, e: Event<I, P>): Fan<I, P> {
    match e
    case Fanned(pkts) => Burst(f, pkts)
    case Join(id, h) => f.(subs := f.subs[id := h])
    case Leave(id) => f.(subs := f.subs - {id})
  }

  predicate Distinct<I(==)>(ids: seq<I>) {
    forall i, j :: 0 <= i < j < |ids| ==> ids[i] != ids[j]
  }

  class Source<I(==), P> {
    var subscribers: map<I, Panics<P>>
    var got: map<I, seq<P>>  // what each handler has been called with
    var hooked: seq<I>       // whom the quarantine hook has been called for

    ghost function View(): Fan<I, P>
      reads this
    {
      Fan(subscribers, got)
    }

    constructor ()
      ensures View() == Fan(map[], map[]) && hooked == []
    {
      subscribers, got, hooked := map[], map[], [];
    }

    method Subscribe(id: I, h: Panics<P>)
      modifies `subscribers
      ensures View() == After(old(View()), Join(id, h))
    {
      subscribers := subscribers[id := h];
    }

    method Unsubscribe(id: I)
      modifies `subscribers
      ensures View() == After(old(View()), Leave(id))
    {
      subscribers := subscribers - {id};
    }

    method SafeDispatch(id: I, h: Panics<P>, pkt: P) returns (ok: bool)
      modifies `got
      ensures got == old(got)[id := Got(old(got), id) + [pkt]]
      ensures ok <==> !h(Got(old(got), id), pkt)
    {
      var before := Got(got, id);
      ok := !h(before, pkt);
      got := got[id := before + [pkt]];
    }

    /** One subscriber's share of a burst: stop at the first panic. */
    method DispatchBurstTo(id: I, h: Panics<P>, pkts: seq<P>) returns (ok: bool)
      modifies `got
      ensures got == old(got)[id := Fed(h, Got(old(got), id), pkts)]
      ensures ok <==> Survives(h, Got(old(got), id), pkts)
    {
      ghost var before := Got(got, id);
      got := got[id := Got(got, id)];
      ok := true;
      var i := 0;
      while i < |pkts| && ok
        invariant 0 <= i <= |pkts|
        invariant ok <==> Survives(h, before, pkts[..i])
        invariant got == old(got)[id := Fed(h, before, pkts[..i])]
      {
        assert pkts[..i + 1][..i] == pkts[..i];
        ok := SafeDispatch(id, h, pkts[i]);
        i := i + 1;
      }
      StopsAtPanic(h, before, pkts, i);
    }

    method DispatchAllPackets(pkts: seq<P>) returns (panicked: seq<I>)
      modifies `got
      ensures got == Burst(old(View()), pkts).got
      ensures forall id :: id in panicked <==>
                id in subscribers && !Survives(subscribers[id], Got(old(got), id), pkts)
      ensures Distinct(panicked)
    {
      panicked := [];
      ghost var f, done := View(), {};
      var todo := subscribers.Keys;
      while todo != {}
        invariant done !! todo && done + todo == subscribers.Keys
        invariant got == Handed(f, pkts, done)
        invariant Distinct(panicked)
        invariant forall id :: id in panicked <==>
                    id in done && !Survives(subscribers[id], Got(f.got, id), pkts)
        decreases todo
      {
        var id :| id in todo;
        HandedNext(f, pkts, done, id);
        var ok := DispatchBurstTo(id, subscribers[id], pkts);
        todo, done := todo - {id}, done + {id};
        if !ok {
          panicked := panicked + [id];
        }
      }
    }

    /** The one-packet form: no burst to stop, the walk goes on past a panic. */
    method DispatchAll(pkt: P) returns (panicked: seq<I>)
      modifies `got
      ensures got == Burst(old(View()), [pkt]).got
      ensures forall id :: id in panicked <==>
                id in subscribers && !Survives(subscribers[id], Got(old(got), id), [pkt])
      ensures Distinct(panicked)
    {
      panicked := [];
      ghost var f, done := View(), {};
      var todo := subscribers.Keys;
      while todo != {}
        invariant done !! todo && done + todo == subscribers.Keys
        invariant got == Handed(f, [pkt], done)
        invariant Distinct(panicked)
        invariant forall id :: id in panicked <==>
                    id in done && !Survives(subscribers[id], Got(f.got, id), [pkt])
        decreases todo
      {
        var id :| id in todo;
        HandedNext(f, [pkt], done, id);
        FedOne(subscribers[id], Got(f.got, id), pkt);
        var ok := SafeDispatch(id, subscribers[id], pkt);
        todo, done := todo - {id}, done + {id};
        if !ok {
          panicked := panicked + [id];
        }
      }
    }

    /** Off the map first, then the hook for each. */
    method QuarantineSubscribers(ids: seq<I>)
      modifies `subscribers, `hooked
      ensures subscribers == map id | id in old(subscribers) && id !in ids :: old(subscribers)[id]
      ensures hooked == old(hooked) + ids
    {
      var i := 0;
      while i < |ids|
        invariant 0 <= i <= |ids|
        invariant hooked == old(hooked)
        invariant subscribers == map id | id in old(subscribers) && id !in ids[..i] :: old(subscribers)[id]
      {
        subscribers := subscribers - {ids[i]};
        assert ids[..i + 1] == ids[..i] + [ids[i]];
        i := i + 1;
      }
      assert ids[..i] == ids;
      i := 0;
      while i < |ids|
        invariant 0 <= i <= |ids|
        invariant hooked == old(hooked) + ids[..i]
        invariant subscribers == map id | id in old(subscribers) && id !in ids :: old(subscribers)[id]
      {
        hooked := hooked + [ids[i]];
        assert ids[..i + 1] == ids[..i] + [ids[i]];
        i := i + 1;
      }
      assert ids[..i] == ids;
    }

    /** A whole fan-out of one packet. The hook runs once for each subscriber that
        left, and for nobody else. */
    method Fanout(pkt: P) returns (gone: seq<I>)
      modifies this
      ensures View() == After(old(View()), Fanned([pkt]))
      ensures hooked == old(hooked) + gone && Distinct(gone)
      ensures forall id :: id in gone <==> id in old(subscribers) && id !in subscribers
    {
      gone := DispatchAll(pkt);
      QuarantineSubscribers(gone);
    }

    /** The same of a burst, in whatever order the map is walked. */
    method FanoutPackets(pkts: seq<P>) returns (gone: seq<I>)
      modifies this
      ensures View() == After(old(View()), Fanned(pkts))
      ensures hooked == old(hooked) + gone && Distinct(gone)
      ensures forall id :: id in gone <==> id in old(subscribers) && id !in subscribers
    {
      gone := DispatchAllPackets(pkts);
      QuarantineSubscribers(gone);
    }
  }

  /** Past the point where the handler panicked, nothing changes. */
  lemma {:induction false} StopsAtPanic<P>(h: Panics<P>, before: seq<P>, pkts: seq<P>, i: nat)
    requires i <= |pkts|
    requires i == |pkts| || !Survives(h, before, pkts[..i])
    ensures Fed(h, before, pkts) == Fed(h, before, pkts[..i])
    ensures Survives(h, before, pkts) <==> Survives(h, before, pkts[..i])
    decreases |pkts|
  {
    if i == |pkts| {
      assert pkts[..i] == pkts;
    } else {
      var n := |pkts| - 1;
      assert pkts[..n][..i] == pkts[..i];
      if i == n {
        assert pkts[..n][..n] == pkts[..n];
      } else {
        StopsAtPanic(h, before, pkts[..n], i);
      }
    }
  }

  // ---------------------------------------------------------------------------
  // One packet at a time
  // ---------------------------------------------------------------------------

  /** The reference: a fan-out and a quarantine for every single packet. */
  function Singles<I, P>(f: Fan<I, P>, pkts: seq<P>): Fan<I, P> {
    if pkts == [] then Burst(f, [])
    else Burst(Singles(f, pkts[..|pkts| - 1]), [pkts[|pkts| - 1]])
  }

  lemma FedOne<P>(h: Panics<P>, before: seq<P>, p: P)
    ensures Fed(h, before, [p]) == before + [p]
    ensures Survives(h, before, [p]) <==> !h(before, p)
  {
    assert [p][..0] == [];
  }

  ghost predicate SameAt<I, P>(b: Fan<I, P>, c: Fan<I, P>, id: I) {
    && (id in b.subs <==> id in c.subs) && (id in b.subs ==> b.subs[id] == c.subs[id])
    && (id in b.got <==> id in c.got) && Got(b.got, id) == Got(c.got, id)
  }

  lemma SameEverywhere<I, P>(b: Fan<I, P>, c: Fan<I, P>)
    requires forall id <- b.subs.Keys + c.subs.Keys + b.got.Keys + c.got.Keys :: SameAt(b, c, id)
    ensures b == c
  {
    forall id | id in b.subs.Keys + c.subs.Keys
      ensures id in b.subs && id in c.subs && b.subs[id] == c.subs[id]
    {
      assert SameAt(b, c, id);
    }
    assert b.subs == c.subs;
    forall id | id in b.got.Keys + c.got.Keys
      ensures id in b.got && id in c.got && b.got[id] == c.got[id]
    {
      assert SameAt(b, c, id);
    }
    assert b.got == c.got;
  }

  lemma SplitAt<I, P>(f: Fan<I, P>, pkts: seq<P>, id: I)
    requires pkts != []
    ensures SameAt(Burst(f, pkts), Burst(Burst(f, pkts[..|pkts| - 1]), [pkts[|pkts| - 1]]), id)
  {
    var n := |pkts| - 1;
    var a := Burst(f, pkts[..n]);
    BurstAt(f, pkts[..n], id);
    BurstAt(f, pkts, id);
    BurstAt(a, [pkts[n]], id);
    if id in a.subs {
      FedOne(a.subs[id], Got(a.got, id), pkts[n]);
    }
  }

  lemma BurstSplits<I, P>(f: Fan<I, P>, pkts: seq<P>)
    requires pkts != []
    ensures Burst(f, pkts) == Burst(Burst(f, pkts[..|pkts| - 1]), [pkts[|pkts| - 1]])
  {
    var b, c := Burst(f, pkts), Burst(Burst(f, pkts[..|pkts| - 1]), [pkts[|pkts| - 1]]);
    forall id | id in b.subs.Keys + c.subs.Keys + b.got.Keys + c.got.Keys
      ensures SameAt(b, c, id)
    {
      SplitAt(f, pkts, id);
    }
    SameEverywhere(b, c);
  }

  /** A burst gives every subscriber the same deliveries, and leaves the same map,
      as one fan-out with quarantine per packet. */
  lemma {:induction false} BurstIsSingles<I, P>(f: Fan<I, P>, pkts: seq<P>)
    ensures Burst(f, pkts) == Singles(f, pkts)
  {
    if pkts != [] {
      BurstIsSingles(f, pkts[..|pkts| - 1]);
      BurstSplits(f, pkts);
    }
  }

  // ---------------------------------------------------------------------------
  // Isolation
  // ---------------------------------------------------------------------------

  /** A handler is handed a prefix of the burst: all of it if it survives, and
      otherwise up to and including the packet it panicked on. */
  lemma {:induction false} HandedAPrefix<P>(h: Panics<P>, before: seq<P>, pkts: seq<P>) returns (k: nat)
    ensures k <= |pkts| && Fed(h, before, pkts) == before + pkts[..k]
    ensures Survives(h, before, pkts) ==> k == |pkts|
    ensures !Survives(h, before, pkts) ==> 0 < k && h(before + pkts[..k - 1], pkts[k - 1])
    ensures forall i :: 0 <= i < k - 1 ==> !h(before + pkts[..i], pkts[i])
    ensures Survives(h, before, pkts) && k > 0 ==> !h(before + pkts[..k - 1], pkts[k - 1])
    decreases |pkts|
  {
    if pkts == [] {
      k := 0;
    } else {
      var n := |pkts| - 1;
      var init := pkts[..n];
      k := HandedAPrefix(h, before, init);
      assert forall i :: 0 <= i <= n ==> init[..i] == pkts[..i];
      if Survives(h, before, init) {
        k := n + 1;
        assert before + init[..n] + [pkts[n]] == before + pkts[..k];
      }
    }
  }

  function Run<I, P>(f: Fan<I, P>, events: seq<Event<I, P>>): Fan<I, P>
    decreases |events|
  {
    if events == [] then f else Run(After(f, events[0]), events[1..])
  }

  /** All packets fanned out, in order. */
  function Flat<I, P>(events: seq<Event<I, P>>): seq<P> {
    if events == [] then []
    else (if events[0].Fanned? then events[0].pkts else []) + Flat(events[1..])
  }

  /** Nobody subscribes or unsubscribes `id`; the others come and go. */
  ghost predicate LeavesAlone<I, P>(events: seq<Event<I, P>>, id: I) {
    forall i :: 0 <= i < |events| ==> events[i].Fanned? || events[i].id != id
  }

  /** One that has been quarantined gets nothing more until it subscribes again. */
  lemma {:induction false} QuarantinedGetsNothing<I, P>(f: Fan<I, P>, events: seq<Event<I, P>>, id: I)
    requires id !in f.subs && LeavesAlone(events, id)
    ensures var g := Run(f, events); id !in g.subs && Got(g.got, id) == Got(f.got, id)
    decreases |events|
  {
    if events != [] {
      if events[0].Fanned? {
        BurstAt(f, events[0].pkts, id);
      }
      QuarantinedGetsNothing(After(f, events[0]), events[1..], id);
    }
  }

  lemma {:induction false} FedThen<P>(h: Panics<P>, before: seq<P>, a: seq<P>, b: seq<P>)
    requires Survives(h, before, a)
    ensures Fed(h, before, a + b) == Fed(h, Fed(h, before, a), b)
    ensures Survives(h, before, a + b) <==> Survives(h, Fed(h, before, a), b)
    decreases |b|
  {
    if b == [] {
      assert a + b == a;
    } else {
      var n := |b| - 1;
      FedThen(h, before, a, b[..n]);
      assert (a + b)[..|a + b| - 1] == a + b[..n];
    }
  }

  /** Over any run of bursts, and whatever the other subscribers do, come or go, a
      subscriber is handed exactly what it would be handed alone, in order, by one long
      burst; it is still subscribed if and only if it never panicked. */
  lemma {:induction false} RunsAreIsolated<I, P>(f: Fan<I, P>, events: seq<Event<I, P>>, id: I)
    requires id in f.subs && LeavesAlone(events, id)
    ensures var h, before, g := f.subs[id], Got(f.got, id), Run(f, events);
            && Got(g.got, id) == Fed(h, before, Flat(events))
            && (id in g.subs <==> Survives(h, before, Flat(events)))
    decreases |events|
  {
    if events != [] {
      if events[0].Fanned? {
        BurstIsolates(f, events, id);
      } else {
        RunsAreIsolated(After(f, events[0]), events[1..], id);
        assert [] + Flat(events[1..]) == Flat(events[1..]);
      }
    }
  }

  lemma {:induction false} BurstIsolates<I, P>(f: Fan<I, P>, events: seq<Event<I, P>>, id: I)
    requires id in f.subs && LeavesAlone(events, id) && events != [] && events[0].Fanned?
    ensures var h, before, g := f.subs[id], Got(f.got, id), Run(f, events);
            && Got(g.got, id) == Fed(h, before, Flat(events))
            && (id in g.subs <==> Survives(h, before, Flat(events)))
    decreases |events|, 0
  {
    var h, before, pkts, rest := f.subs[id], Got(f.got, id), events[0].pkts, events[1..];
    var b := Burst(f, pkts);
    BurstAt(f, pkts, id);
    if Survives(h, before, pkts) {
      RunsAreIsolated(b, rest, id);
      FedThen(h, before, pkts, Flat(rest));
    } else {
      QuarantinedGetsNothing(b, rest, id);
      assert (pkts + Flat(rest))[..|pkts|] == pkts;
      StopsAtPanic(h, before, pkts + Flat(rest), |pkts|);
    }
  }

  /** One that survives everything it is handed gets every packet. */
  lemma SurvivorGetsEverything<I, P>(f: Fan<I, P>, events: seq<Event<I, P>>, id: I)
    requires id in f.subs && LeavesAlone(events, id) && Survives(f.subs[id], Got(f.got, id), Flat(events))
    ensures Got(Run(f, events).got, id) == Got(f.got, id) + Flat(events)
  {
    RunsAreIsolated(f, events, id);
    var k := HandedAPrefix(f.subs[id], Got(f.got, id), Flat(events));
    assert Flat(events)[..k] == Flat(events);
  }

  /** A subscriber that joins is handed the next burst, up to a panic; one that leaves
      is not; and neither changes anybody else's deliveries. */
  lemma JoiningAndLeaving<I, P>(f: Fan<I, P>, id: I, h: Panics<P>, pkts: seq<P>, other: I)
    requires other != id
    ensures Got(Run(f, [Join(id, h), Fanned(pkts)]).got, id) == Fed(h, Got(f.got, id), pkts)
    ensures Got(Run(f, [Leave(id), Fanned(pkts)]).got, id) == Got(f.got, id)
    ensures Got(Run(f, [Join(id, h), Fanned(pkts)]).got, other) == Got(Run(f, [Fanned(pkts)]).got, other)
    ensures Got(Run(f, [Leave(id), Fanned(pkts)]).got, other) == Got(Run(f, [Fanned(pkts)]).got, other)
  {
    var joined, left := After(f, Join(id, h)), After(f, Leave(id));
    RunTwo(f, Join(id, h), Fanned(pkts));
    RunTwo(f, Leave(id), Fanned(pkts));
    var next: seq<Event<I, P>> := [Fanned(pkts)];
    assert next[1..] == [];
    BurstAt(joined, pkts, id);
    BurstAt(left, pkts, id);
    BurstAt(joined, pkts, other);
    BurstAt(left, pkts, other);
    BurstAt(f, pkts, other);
  }

  lemma RunTwo<I, P>(f: Fan<I, P>, a: Event<I, P>, b: Event<I, P>)
    ensures Run(f, [a, b]) == After(After(f, a), b)
  {
    assert [a, b][1..] == [b] && [b][1..] == [];
    assert Run(After(f, a), [b]) == After(After(f, a), b);
  }
}
