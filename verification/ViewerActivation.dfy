// The pending slot: SwitchTo leaves a source in it, and any number of waiting
// goroutines and connection callbacks race to consume it.
//
// Activation is three steps: consume the slot under the mutex, subscribe with the
// mutex released, publish the unsubscribe function under the mutex. Sources are
// told apart by object, and a source holds at most one handler for this viewer.
module ViewerActivation {
  import opened Media

  type Src = nat

  /** An activation between consuming the slot and publishing its unsubscribe. */
  datatype Flight = Flight(src: Src, subscribed: bool)

  datatype Slot = Slot(
    closed: bool,
    pending: Option<Src>,
    unsubscribe: Option<Src>,   // the source the stored function unsubscribes from
    live: set<Src>,             // sources that hold a handler for this viewer
    waiters: seq<Src>,          // goroutines about to call activateSource
    flights: seq<Flight>,
    switchTos: nat,
    consumed: nat)

  const START: Slot := Slot(false, None, None, {}, [], [], 0, 0)

  datatype Action =
    | SwitchTo(src: Src) | Connected | Consume(waiter: nat) | Subscribe(flight: nat) | Publish(flight: nat)
    | Detach | Close

  /** Calling the stored unsubscribe function, if there is one. */
  function Released(s: Slot): set<Src> {
    if s.unsubscribe.Some? then s.live - {s.unsubscribe.value} else s.live
  }

  function Without<T>(xs: seq<T>, i: nat): seq<T>
    requires i < |xs|
  {
    xs[..i] + xs[i + 1..]
  }

  function SwitchToStep(s: Slot, src: Src): Slot {
    if s.closed then s
    else s.(live := Released(s), unsubscribe := None, pending := Some(src),
            waiters := s.waiters + [src], switchTos := s.switchTos + 1)
  }

  function ConsumeStep(s: Slot, i: nat): Slot {
    if i >= |s.waiters| then s
    else
      var t := s.(waiters := Without(s.waiters, i));
      if s.pending != Some(s.waiters[i]) then t
      else t.(pending := None, live := Released(s), unsubscribe := None,
              flights := s.flights + [Flight(s.waiters[i], false)], consumed := s.consumed + 1)
  }

  function SubscribeStep(s: Slot, k: nat): Slot {
    if k >= |s.flights| || s.flights[k].subscribed then s
    else s.(live := s.live + {s.flights[k].src}, flights := s.flights[k := Flight(s.flights[k].src, true)])
  }

  function PublishStep(s: Slot, k: nat): Slot {
    if k >= |s.flights| || !s.flights[k].subscribed then s
    else s.(unsubscribe := Some(s.flights[k].src), flights := Without(s.flights, k))
  }

  function Step(s: Slot, a: Action): Slot {
    match a
    case SwitchTo(src) => SwitchToStep(s, src)
    case Connected => if s.pending.Some? then s.(waiters := s.waiters + [s.pending.value]) else s
    case Consume(i) => ConsumeStep(s, i)
    case Subscribe(k) => SubscribeStep(s, k)
    case Publish(k) => PublishStep(s, k)
    case Detach => s.(live := Released(s), unsubscribe := None)
    case Close => if s.closed then s else s.(closed := true, live := Released(s))
  }

  function Exec(s: Slot, acts: seq<Action>): Slot {
    if acts == [] then s else Step(Exec(s, acts[..|acts| - 1]), acts[|acts| - 1])
  }

  // ---------------------------------------------------------------------------
  // The critical sections
  // ---------------------------------------------------------------------------

  class Viewer {
    var closed: bool
    var pendingSource: Option<Src>
    var unsubscribe: Option<Src>
    var live: set<Src>
    var waiters: seq<Src>
    var flights: seq<Flight>
    ghost var switchTos: nat
    ghost var consumed: nat

    ghost function View(): Slot
      reads this
    {
      Slot(closed, pendingSource, unsubscribe, live, waiters, flights, switchTos, consumed)
    }

    constructor ()
      ensures View() == START
    {
      closed, pendingSource, unsubscribe, live, waiters, flights := false, None, None, {}, [], [];
      switchTos, consumed := 0, 0;
    }

    method CallUnsubscribe()
      requires unsubscribe.Some?
      modifies `live
      ensures live == old(live) - {unsubscribe.value}
    {
      live := live - {unsubscribe.value};
    }

    method SwitchSource(src: Src)
      modifies this
      ensures View() == Step(old(View()), SwitchTo(src))
    {
      if closed {
        return;
      }
      if unsubscribe.Some? {
        CallUnsubscribe();
        unsubscribe := None;
      }
      pendingSource := Some(src);
      waiters := waiters + [src];
      switchTos := switchTos + 1;
    }

    /** The first section of activateSource, as the i-th waiting goroutine. */
    method ConsumePending(i: nat)
      requires i < |waiters|
      modifies this
      ensures View() == Step(old(View()), Consume(i))
    {
      var src := waiters[i];
      waiters := waiters[..i] + waiters[i + 1..];
      if pendingSource != Some(src) {
        return;
      }
      pendingSource := None;
      if unsubscribe.Some? {
        CallUnsubscribe();
        unsubscribe := None;
      }
      flights := flights + [Flight(src, false)];
      consumed := consumed + 1;
    }

    method DetachSource()
      modifies `live, `unsubscribe
      ensures View() == Step(old(View()), Detach)
    {
      if unsubscribe.Some? {
        CallUnsubscribe();
        unsubscribe := None;
      }
    }

    method CloseViewer()
      modifies `closed, `live
      ensures View() == Step(old(View()), Close)
    {
      if closed {
        return;
      }
      closed := true;
      if unsubscribe.Some? {
        CallUnsubscribe();
      }
    }
  }

  // ---------------------------------------------------------------------------
  // Consumed once
  // ---------------------------------------------------------------------------

  /** In every interleaving, activations never outnumber SwitchTo calls. */
  lemma {:induction false} ActivationsNeverOutnumberSwitches(acts: seq<Action>)
    ensures var s := Exec(START, acts);
            s.consumed + (if s.pending.Some? then 1 else 0) <= s.switchTos
  {
    if acts != [] {
      ActivationsNeverOutnumberSwitches(acts[..|acts| - 1]);
    }
  }

  /** The source of the last SwitchTo that found the viewer open. */
  function LatestSwitch(acts: seq<Action>): Option<Src> {
    if acts == [] then None
    else
      var init, a := acts[..|acts| - 1], acts[|acts| - 1];
      if a.SwitchTo? && !Exec(START, init).closed then Some(a.src) else LatestSwitch(init)
  }

  lemma {:induction false} PendingIsLatest(acts: seq<Action>)
    ensures var s := Exec(START, acts); s.pending.Some? ==> s.pending == LatestSwitch(acts)
  {
    if acts != [] {
      PendingIsLatest(acts[..|acts| - 1]);
    }
  }

  /** After any run, an activation begins only for the source of the latest SwitchTo,
      and an attempt for any other source subscribes nothing, takes nothing and ends
      its goroutine. */
  lemma OnlyTheLatestIsConsumed(acts: seq<Action>, i: nat)
    requires i < |Exec(START, acts).waiters|
    ensures var s := Exec(START, acts);
            var t := Step(s, Consume(i));
            && (t.consumed > s.consumed ==> LatestSwitch(acts) == Some(s.waiters[i]))
            && (LatestSwitch(acts) != Some(s.waiters[i]) ==> t == s.(waiters := Without(s.waiters, i)))
  {
    PendingIsLatest(acts);
  }

  /** At some point of the run an activation for `x` began, and `x` was then the
      source of the latest SwitchTo. */
  predicate WasLatest(acts: seq<Action>, x: Src) {
    acts != [] &&
    (var init, a := acts[..|acts| - 1], acts[|acts| - 1];
     || WasLatest(init, x)
     || (&& a.Consume? && LatestSwitch(init) == Some(x)
         && Exec(START, acts).consumed > Exec(START, init).consumed
         && a.waiter < |Exec(START, init).waiters| && Exec(START, init).waiters[a.waiter] == x))
  }

  ghost predicate Earned(acts: seq<Action>) {
    var s := Exec(START, acts);
    && (forall x <- s.live :: WasLatest(acts, x))
    && (forall k :: 0 <= k < |s.flights| ==> WasLatest(acts, s.flights[k].src))
  }

  lemma WasLatestStays(acts: seq<Action>, a: Action, x: Src)
    requires WasLatest(acts, x)
    ensures WasLatest(acts + [a], x)
  {
    assert (acts + [a])[..|acts|] == acts;
  }

  predicate InFlight(s: Slot, x: Src) {
    exists k :: 0 <= k < |s.flights| && s.flights[k].src == x
  }

  /** What a step can add: a flight goes live, a consumed waiter goes in flight. */
  lemma LiveWasInFlight(s: Slot, a: Action, x: Src)
    requires x in Step(s, a).live && x !in s.live
    ensures InFlight(s, x)
  {
    assert s.flights[a.flight].src == x;
  }

  lemma InFlightWasConsumed(s: Slot, a: Action, j: nat)
    requires j < |Step(s, a).flights|
    ensures var x := Step(s, a).flights[j].src;
            || InFlight(s, x)
            || (a.Consume? && a.waiter < |s.waiters| && Step(s, a).consumed > s.consumed && s.waiters[a.waiter] == x)
  {
    var t := Step(s, a);
    if a.Publish? && |t.flights| < |s.flights| && j >= a.flight {
      assert t.flights[j] == s.flights[j + 1];
    } else if j < |s.flights| {
      assert t.flights[j].src == s.flights[j].src;
    }
  }

  /** Over every run: whatever source holds a handler for this viewer, or is about
      to, was activated as the source of the latest SwitchTo. */
  lemma {:induction false} OnlyTheLatestIsSubscribed(acts: seq<Action>)
    ensures Earned(acts)
  {
    if acts != [] {
      var init, a := acts[..|acts| - 1], acts[|acts| - 1];
      var s, t := Exec(START, init), Exec(START, acts);
      OnlyTheLatestIsSubscribed(init);
      assert init + [a] == acts;
      forall x <- t.live
        ensures WasLatest(acts, x)
      {
        if x !in s.live {
          LiveWasInFlight(s, a, x);
        }
        WasLatestStays(init, a, x);
      }
      forall j | 0 <= j < |t.flights|
        ensures WasLatest(acts, t.flights[j].src)
      {
        InFlightWasConsumed(s, a, j);
        if InFlight(s, t.flights[j].src) {
          WasLatestStays(init, a, t.flights[j].src);
        } else {
          OnlyTheLatestIsConsumed(init, a.waiter);
        }
      }
    }
  }

  /** The source in flight and the pending one: nothing is subscribed that was not
      first consumed from the slot. */
  predicate OnePath(s: Slot) {
    && |s.flights| <= 1
    && (s.flights == [] ==> s.unsubscribe.Some? || s.live == {})
    && (s.flights == [] && s.unsubscribe.Some? ==> s.live <= {s.unsubscribe.value})
    && (s.flights != [] ==> s.unsubscribe.None?)
    && (s.flights != [] ==> s.live == if s.flights[0].subscribed then {s.flights[0].src} else {})
  }

  /** No goroutine consumes the slot while another is between consuming and
      publishing. */
  predicate OneAtATime(s: Slot, acts: seq<Action>) {
    acts == [] ||
    (var n := |acts| - 1;
     && OneAtATime(s, acts[..n])
     && (acts[n].Consume? ==> Exec(s, acts[..n]).flights == []))
  }

  lemma StepKeepsOnePath(s: Slot, a: Action)
    requires OnePath(s) && (a.Consume? ==> s.flights == [])
    ensures OnePath(Step(s, a))
  {
  }

  lemma AtMostOne(s: Slot)
    requires OnePath(s)
    ensures |s.live| <= 1
  {
    var bound: set<Src> :=
      if s.flights != [] then (if s.flights[0].subscribed then {s.flights[0].src} else {})
      else if s.unsubscribe.Some? then {s.unsubscribe.value} else {};
    assert s.live <= bound;
    SubsetSize(s.live, bound);
  }

  lemma {:induction false} SubsetSize<T>(a: set<T>, b: set<T>)
    requires a <= b
    ensures |a| <= |b|
    decreases b
  {
    if a != {} {
      var x :| x in a;
      SubsetSize(a - {x}, b - {x});
    }
  }

  /** With activations one at a time, and SwitchTo, DetachSource, Close and
      connection callbacks anywhere, a viewer never has two live subscriptions. */
  lemma {:induction false} AtMostOneSubscription(acts: seq<Action>)
    requires OneAtATime(START, acts)
    ensures OnePath(Exec(START, acts)) && |Exec(START, acts).live| <= 1
  {
    if acts != [] {
      AtMostOneSubscription(acts[..|acts| - 1]);
      StepKeepsOnePath(Exec(START, acts[..|acts| - 1]), acts[|acts| - 1]);
    }
    AtMostOne(Exec(START, acts));
  }

  /** The i-th waiting goroutine runs its activation to the end, and one that was in
      flight before it finishes too. */
  function Finished(s: Slot, i: nat): Slot {
    Step(Step(Step(Step(Step(s, Consume(i)), Subscribe(0)), Subscribe(1)), Publish(0)), Publish(0))
  }

  lemma FinishAlone(s: Slot, i: nat)
    requires OnePath(s) && i < |s.waiters| && s.pending == Some(s.waiters[i]) && s.flights == []
    ensures Finished(s, i).live == {s.waiters[i]}
  {
    var y := s.waiters[i];
    var s1 := Step(s, Consume(i));
    assert s1.flights == [Flight(y, false)] && s1.live == {};
    var s2 := Step(s1, Subscribe(0));
    assert s2.flights == [Flight(y, true)] && s2.live == {y};
  }

  lemma FinishOverlapping(s: Slot, i: nat)
    requires OnePath(s) && i < |s.waiters| && s.pending == Some(s.waiters[i]) && s.flights != []
    ensures Finished(s, i).live == {s.flights[0].src, s.waiters[i]}
    ensures Finished(s, i).unsubscribe == Some(s.waiters[i])
  {
    var x, y := s.flights[0].src, s.waiters[i];
    var s1 := Step(s, Consume(i));
    assert s1.flights == [s.flights[0], Flight(y, false)] && s1.live == s.live;
    var s2 := Step(s1, Subscribe(0));
    assert s2.flights == [Flight(x, true), Flight(y, false)] && s2.live == {x};
    var s3 := Step(s2, Subscribe(1));
    assert s3.flights == [Flight(x, true), Flight(y, true)] && s3.live == {x, y};
    var s4 := Step(s3, Publish(0));
    assert s4.flights == [Flight(y, true)];
  }

  /** Exactly when an activation is clean: no other is between consuming and
      publishing, or it is for the same source. Otherwise both sources stay
      subscribed and closing the viewer leaves the first one live. */
  lemma CleanActivationIff(s: Slot, i: nat)
    requires OnePath(s) && i < |s.waiters| && s.pending == Some(s.waiters[i])
    ensures var t := Finished(s, i);
            var clean := s.flights == [] || s.flights[0].src == s.waiters[i];
            && (|t.live| <= 1 <==> clean)
            && (!clean && !t.closed ==> Step(t, Close).live == {s.flights[0].src})
  {
    if s.flights == [] {
      FinishAlone(s, i);
    } else {
      FinishOverlapping(s, i);
    }
  }

  lemma OverlapBegins(x: Src, y: Src)
    ensures var s := Exec(START, [SwitchTo(x), Consume(0), SwitchTo(y)]);
            && OnePath(s) && !s.closed && s.flights == [Flight(x, false)]
            && s.waiters == [y] && s.pending == Some(y)
  {
    var a1, a2 := [SwitchTo(x)], [SwitchTo(x), Consume(0)];
    var a3 := [SwitchTo(x), Consume(0), SwitchTo(y)];
    assert a1[..0] == [] && a2[..1] == a1 && a3[..2] == a2;
    assert Exec(START, a1) == START.(pending := Some(x), waiters := [x], switchTos := 1);
    assert Exec(START, a2).waiters == [] && Exec(START, a2).flights == [Flight(x, false)];
  }

  /** A run to two subscriptions: the second SwitchTo's activation begins before the
      first has subscribed, and Close then reaches only one of the two. */
  lemma OverlapLeavesTwo(x: Src, y: Src)
    requires x != y
    ensures var acts := [SwitchTo(x), Consume(0), SwitchTo(y), Consume(0)];
            var s := Exec(START, acts + [Subscribe(0), Subscribe(1), Publish(0), Publish(0)]);
            s.live == {x, y} && |s.live| == 2 && Step(s, Close).live == {x}
  {
    var a3, a4 := [SwitchTo(x), Consume(0), SwitchTo(y)], [SwitchTo(x), Consume(0), SwitchTo(y), Consume(0)];
    OverlapBegins(x, y);
    FinishOverlapping(Exec(START, a3), 0);
    assert a4[..3] == a3;
    var a5, a6, a7 := a4 + [Subscribe(0)], a4 + [Subscribe(0), Subscribe(1)], a4 + [Subscribe(0), Subscribe(1), Publish(0)];
    var a8 := a4 + [Subscribe(0), Subscribe(1), Publish(0), Publish(0)];
    assert a5[..4] == a4 && a6[..5] == a5 && a7[..6] == a6 && a8[..7] == a7;
    assert Exec(START, a5) == Step(Exec(START, a4), Subscribe(0));
    assert Exec(START, a6) == Step(Exec(START, a5), Subscribe(1));
    assert Exec(START, a7) == Step(Exec(START, a6), Publish(0));
    assert Exec(START, a8) == Finished(Exec(START, a3), 0);
  }

  // ---------------------------------------------------------------------------
  // Detached or closed for good
  // ---------------------------------------------------------------------------

  predicate NoSwitch(acts: seq<Action>) {
    forall i :: 0 <= i < |acts| ==> !acts[i].SwitchTo?
  }

  /** No handler anywhere, nothing pending, and nobody about to subscribe. */
  predicate Quiet(s: Slot) {
    s.live == {} && s.pending.None? && forall k :: 0 <= k < |s.flights| ==> s.flights[k].subscribed
  }

  lemma {:induction false} QuietStays(s: Slot, more: seq<Action>)
    requires Quiet(s) && (s.closed || NoSwitch(more))
    ensures Quiet(Exec(s, more)) && (s.closed ==> Exec(s, more).closed)
    decreases |more|
  {
    if more != [] {
      QuietStays(s, more[..|more| - 1]);
    }
  }

  /** DetachSource uses the stored function up, and from then on no handler is taken
      away until an activation publishes another; a second Close does nothing. */
  lemma CalledOnce(s: Slot, a: Action)
    ensures Step(s, Detach).unsubscribe.None? && Step(s, Detach).pending == s.pending
    ensures s.unsubscribe.None? && !a.Publish? ==> s.live <= Step(s, a).live
    ensures Step(s, Close).closed && Step(Step(s, Close), Close) == Step(s, Close)
    ensures s.closed ==> Step(s, Close) == s
  {
  }

  /** A source left pending is subscribed by the next connection callback at the
      latest, whether or not a goroutine is waiting. */
  lemma PendingSubscribes(s: Slot)
    requires s.pending.Some?
    ensures Exec(s, [Connected, Consume(|s.waiters|), Subscribe(|s.flights|)]).live != {}
  {
    var x := s.pending.value;
    var a1, a2, a3 := [Connected], [Connected, Consume(|s.waiters|)], [Connected, Consume(|s.waiters|), Subscribe(|s.flights|)];
    assert a1[..0] == [] && a2[..1] == a1 && a3[..2] == a2;
    assert Exec(s, a1) == s.(waiters := s.waiters + [x]);
    assert Exec(s, a2).flights == s.flights + [Flight(x, false)];
    assert x in Exec(s, a3).live;
  }

  lemma FlightSubscribes(s: Slot, k: nat)
    requires k < |s.flights| && !s.flights[k].subscribed
    ensures Exec(s, [Subscribe(k)]).live != {}
  {
    assert [Subscribe(k)][..0] == [];
    assert s.flights[k].src in Exec(s, [Subscribe(k)]).live;
  }

  /** DetachSource and Close end the viewer's subscriptions for good, whatever
      happens next short of another effective SwitchTo, exactly when the stored
      unsubscribe function reaches every handler, nothing is pending, and no
      activation is between consuming the slot and subscribing. */
  lemma UnsubscribedForGoodIff(s: Slot, a: Action)
    requires a == Detach || (a == Close && !s.closed)
    ensures Released(s) == {} && s.pending.None? && (forall k :: 0 <= k < |s.flights| ==> s.flights[k].subscribed)
            <==> forall more: seq<Action> :: Step(s, a).closed || NoSwitch(more) ==> Exec(Step(s, a), more).live == {}
  {
    var t := Step(s, a);
    if Quiet(t) {
      forall more: seq<Action> | t.closed || NoSwitch(more)
        ensures Exec(t, more).live == {}
      {
        QuietStays(t, more);
      }
    } else {
      var more: seq<Action> := Reviving(t);
      assert NoSwitch(more) && Exec(t, more).live != {};
    }
  }

  /** How a viewer that is not quiet gets a handler. */
  function Reviving(s: Slot): (more: seq<Action>)
    requires !Quiet(s)
    ensures NoSwitch(more) && Exec(s, more).live != {}
  {
    if s.live != {} then []
    else if s.pending.Some? then
      PendingSubscribes(s);
      [Connected, Consume(|s.waiters|), Subscribe(|s.flights|)]
    else
      var k := FirstUnsubscribed(s.flights, 0);
      FlightSubscribes(s, k);
      [Subscribe(k)]
  }

  function FirstUnsubscribed(flights: seq<Flight>, from: nat): (k: nat)
    requires exists i :: from <= i < |flights| && !flights[i].subscribed
    ensures k < |flights| && !flights[k].subscribed
    decreases |flights| - from
  {
    if !flights[from].subscribed then from else FirstUnsubscribed(flights, from + 1)
  }

  // Runs to a closed or detached viewer with a handler.

  lemma ExecMore(acts: seq<Action>, a: Action, b: Action, c: Action)
    ensures Exec(START, acts + [a, b]) == Step(Step(Exec(START, acts), a), b)
    ensures Exec(START, acts + [a, b, c]) == Step(Step(Step(Exec(START, acts), a), b), c)
  {
    assert (acts + [a])[..|acts|] == acts && (acts + [a, b])[..|acts| + 1] == acts + [a];
    assert (acts + [a, b, c])[..|acts| + 2] == acts + [a, b];
    assert Exec(START, acts + [a]) == Step(Exec(START, acts), a);
  }

  lemma Begun(x: Src)
    ensures Exec(START, [SwitchTo(x)]) == START.(pending := Some(x), waiters := [x], switchTos := 1)
    ensures var s := Exec(START, [SwitchTo(x), Consume(0)]);
            && s.flights == [Flight(x, false)] && s.waiters == [] && s.live == {}
            && s.pending.None? && s.unsubscribe.None? && !s.closed
  {
    var a1, a2 := [SwitchTo(x)], [SwitchTo(x), Consume(0)];
    assert a1[..0] == [] && a2[..1] == a1;
    assert Exec(START, a1).live == {} && Exec(START, a1).waiters == [x];
  }

  /** Close comes before the waiting goroutine. */
  lemma LateActivationAfterClose(s: Slot, x: Src)
    requires !s.closed && s.flights == [] && s.waiters == [] && OnePath(s)
    ensures var t := Step(Step(Step(Step(s, SwitchTo(x)), Close), Consume(0)), Subscribe(0));
            t.closed && t.live == {x}
  {
    var s1 := Step(s, SwitchTo(x));
    assert s1.live == {} && s1.waiters == [x];
    var s2 := Step(Step(s1, Close), Consume(0));
    assert s2.flights == [Flight(x, false)];
  }

  /** Close comes between consuming the slot and subscribing: nobody is waiting and
      nothing is pending, and still the viewer is subscribed. */
  lemma ClosedInFlight(x: Src)
    ensures var s := Exec(START, [SwitchTo(x), Consume(0), Close, Subscribe(0)]);
            s.closed && s.live == {x} && s.waiters == [] && s.pending.None?
  {
    var a2 := [SwitchTo(x), Consume(0)];
    Begun(x);
    ExecMore(a2, Close, Subscribe(0), Close);
    assert a2 + [Close, Subscribe(0)] == [SwitchTo(x), Consume(0), Close, Subscribe(0)];
  }

  /** Close comes between subscribing and publishing, and finds nothing to call. */
  lemma ClosedUnpublished(x: Src)
    ensures var s := Exec(START, [SwitchTo(x), Consume(0), Subscribe(0), Close, Publish(0)]);
            s.closed && s.live == {x} && s.flights == []
  {
    var a2 := [SwitchTo(x), Consume(0)];
    Begun(x);
    ExecMore(a2, Subscribe(0), Close, Publish(0));
    assert a2 + [Subscribe(0), Close, Publish(0)] == [SwitchTo(x), Consume(0), Subscribe(0), Close, Publish(0)];
  }

  /** DetachSource comes before the waiting goroutine. */
  lemma DetachedButPending(x: Src)
    ensures Exec(START, [SwitchTo(x), Detach, Consume(0), Subscribe(0)]).live == {x}
  {
    Begun(x);
    ExecMore([SwitchTo(x)], Detach, Consume(0), Subscribe(0));
    assert [SwitchTo(x)] + [Detach, Consume(0), Subscribe(0)] == [SwitchTo(x), Detach, Consume(0), Subscribe(0)];
  }
}
