// Recorder teardown cannot deadlock with the fan-out, nor can viewers as long as
// they unsubscribe outside their mutex; and exactly when they can if they do not.
//
// A goroutine is the list of lock operations it has left. Any number of them run
// in any order; a reader waits for a holding writer and for a writer that is about
// to lock, as Go's RWMutex makes it. A select with a timeout never blocks.
module RecorderLocks {
  import opened Media

  datatype Mutex = SwitchMu | SourceMu(source: nat) | RecorderMu(recorder: nat) | ViewerMu(viewer: nat)

  datatype Op = RLock(mu: Mutex) | RUnlock(mu: Mutex) | Lock(mu: Mutex) | Unlock(mu: Mutex) | AwaitOrTimeout

  datatype Thread = Thread(todo: seq<Op>, shared: set<Mutex>, exclusive: set<Mutex>)
  {
    function Held(): set<Mutex> {
      shared + exclusive
    }

    /** About to take or release a recorder's mutex. */
    predicate AtRecorder() {
      todo != [] && (todo[0].Lock? || todo[0].Unlock?) && todo[0].mu.RecorderMu?
    }

    predicate Acquires() {
      todo != [] && (todo[0].Lock? || todo[0].RLock?)
    }
  }

  predicate Enabled(st: seq<Thread>, i: nat) {
    && i < |st| && st[i].todo != []
    && match st[i].todo[0]
       case Lock(mu) => forall j :: 0 <= j < |st| ==> mu !in st[j].Held()
       case RLock(mu) =>
         forall j :: 0 <= j < |st| ==>
           mu !in st[j].exclusive && (st[j].todo == [] || st[j].todo[0] != Lock(mu))
       case _ => true
  }

  function Advance(t: Thread): Thread
    requires t.todo != []
  {
    var rest := t.(todo := t.todo[1..]);
    match t.todo[0]
    case Lock(mu) => rest.(exclusive := t.exclusive + {mu})
    case RLock(mu) => rest.(shared := t.shared + {mu})
    case Unlock(mu) => rest.(exclusive := t.exclusive - {mu})
    case RUnlock(mu) => rest.(shared := t.shared - {mu})
    case AwaitOrTimeout => rest
  }

  function StepThread(st: seq<Thread>, i: nat): seq<Thread> {
    if Enabled(st, i) then st[i := Advance(st[i])] else st
  }

  function Run(st: seq<Thread>, schedule: seq<nat>): seq<Thread> {
    if schedule == [] then st
    else StepThread(Run(st, schedule[..|schedule| - 1]), schedule[|schedule| - 1])
  }

  // ---------------------------------------------------------------------------
  // Lock orders
  // ---------------------------------------------------------------------------

  /** The order the code follows, and two that serve a viewer which unsubscribes
      under its own mutex. */
  datatype Order = SwitchFirst | ViewerFirst(v: nat) | SourceFirst(s: nat)

  function Rank(o: Order, mu: Mutex): (r: nat)
    ensures r <= 3
  {
    match o
    case SwitchFirst =>
      (match mu
       case SwitchMu => 0
       case SourceMu(_) => 1
       case _ => 2)
    case ViewerFirst(v) =>
      (match mu
       case SwitchMu => 0
       case ViewerMu(w) => if w == v then 1 else 3
       case SourceMu(_) => 2
       case RecorderMu(_) => 3)
    case SourceFirst(first) =>
      (match mu
       case SwitchMu => 0
       case SourceMu(x) => if x == first then 1 else 3
       case _ => 2)
  }

  /** A recorder's mutex is not touched under the switch's. */
  predicate Apart(mu: Mutex, held: set<Mutex>) {
    mu.RecorderMu? ==> SwitchMu !in held
  }

  predicate Above(o: Order, mu: Mutex, held: set<Mutex>) {
    (forall h <- held :: Rank(o, h) < Rank(o, mu)) && Apart(mu, held)
  }

  /** The rest of a script takes each mutex above all it holds, keeps recorders apart
      from the switch, and ends with none; a lock is released the way it was taken. */
  predicate Ordered(o: Order, todo: seq<Op>, shared: set<Mutex>, exclusive: set<Mutex>) {
    if todo == [] then shared + exclusive == {}
    else
      var rest := todo[1..];
      match todo[0]
      case Lock(mu) => Above(o, mu, shared + exclusive) && Ordered(o, rest, shared, exclusive + {mu})
      case RLock(mu) => Above(o, mu, shared + exclusive) && Ordered(o, rest, shared + {mu}, exclusive)
      case Unlock(mu) => mu in exclusive && Apart(mu, shared + exclusive) && Ordered(o, rest, shared, exclusive - {mu})
      case RUnlock(mu) => mu in shared && Apart(mu, shared + exclusive) && Ordered(o, rest, shared - {mu}, exclusive)
      case AwaitOrTimeout => Ordered(o, rest, shared, exclusive)
  }

  predicate AllOrdered(o: Order, st: seq<Thread>) {
    forall i :: 0 <= i < |st| ==> Ordered(o, st[i].todo, st[i].shared, st[i].exclusive)
  }

  lemma {:induction false} RunStaysOrdered(o: Order, st: seq<Thread>, schedule: seq<nat>)
    requires AllOrdered(o, st)
    ensures AllOrdered(o, Run(st, schedule))
  {
    if schedule != [] {
      RunStaysOrdered(o, st, schedule[..|schedule| - 1]);
    }
  }

  /** A thread that wants a taken mutex points at a holder, which is not done and
      can only be waiting for something ranked higher. */
  lemma BlockedBehindHolder(o: Order, st: seq<Thread>, i: nat) returns (j: nat)
    requires AllOrdered(o, st)
    requires i < |st| && st[i].Acquires() && (forall k: nat :: !Enabled(st, k))
    ensures j < |st| && st[j].Acquires() && Rank(o, st[i].todo[0].mu) < Rank(o, st[j].todo[0].mu)
  {
    var mu := st[i].todo[0].mu;
    assert !Enabled(st, i);
    if h :| 0 <= h < |st| && mu in st[h].Held() {
      j := h;
    } else {
      // no holder: only a writer about to lock can stop a reader, and it is enabled
      assert st[i].todo[0].RLock?;
      var k :| 0 <= k < |st| && st[k].todo != [] && st[k].todo[0] == Lock(mu);
      assert Enabled(st, k);
      assert false;
    }
    assert Ordered(o, st[j].todo, st[j].shared, st[j].exclusive);
    assert !Enabled(st, j);
    assert st[j].Acquires();
  }

  /** As long as anyone has work left, someone can move. */
  lemma {:induction false} SomeoneCanMove(o: Order, st: seq<Thread>, i: nat)
    requires AllOrdered(o, st)
    requires i < |st| && st[i].todo != []
    ensures exists k: nat :: Enabled(st, k)
    decreases if st[i].Acquires() then 4 - Rank(o, st[i].todo[0].mu) else 5
  {
    if forall k: nat :: !Enabled(st, k) {
      assert !Enabled(st, i);
      var j := BlockedBehindHolder(o, st, i);
      SomeoneCanMove(o, st, j);
    }
  }

  function Work(st: seq<Thread>): nat {
    if st == [] then 0 else |st[0].todo| + Work(st[1..])
  }

  lemma {:induction false} WorkUpdate(st: seq<Thread>, i: nat, t: Thread)
    requires i < |st|
    ensures Work(st[i := t]) == Work(st) - |st[i].todo| + |t.todo|
  {
    if i == 0 {
      assert st[i := t][1..] == st[1..];
    } else {
      WorkUpdate(st[1..], i - 1, t);
      assert st[i := t][1..] == st[1..][i - 1 := t];
    }
  }

  predicate AllDone(st: seq<Thread>) {
    forall i :: 0 <= i < |st| ==> st[i].todo == []
  }

  /** Every step uses up work, so no schedule goes on for ever. */
  lemma StepUsesWork(st: seq<Thread>, i: nat)
    requires Enabled(st, i)
    ensures Work(StepThread(st, i)) == Work(st) - 1
  {
    WorkUpdate(st, i, Advance(st[i]));
  }

  /** From any state the threads can all be brought to the end. */
  lemma {:induction false} AllCanFinish(o: Order, st: seq<Thread>) returns (schedule: seq<nat>)
    requires AllOrdered(o, st)
    ensures AllDone(Run(st, schedule))
    decreases Work(st)
  {
    if AllDone(st) {
      schedule := [];
    } else {
      var i :| 0 <= i < |st| && st[i].todo != [];
      SomeoneCanMove(o, st, i);
      var k: nat :| Enabled(st, k);
      var next := StepThread(st, k);
      StepUsesWork(st, k);
      assert Run(st, [k]) == next by {
        assert [k][..0] == [];
      }
      RunStaysOrdered(o, st, [k]);
      var rest := AllCanFinish(o, next);
      RunConcat(st, [k], rest);
      schedule := [k] + rest;
    }
  }

  lemma {:induction false} RunConcat(st: seq<Thread>, a: seq<nat>, b: seq<nat>)
    ensures Run(st, a + b) == Run(Run(st, a), b)
  {
    if b == [] {
      assert a + b == a;
    } else {
      RunConcat(st, a, b[..|b| - 1]);
      assert (a + b)[..|a + b| - 1] == a + b[..|b| - 1];
    }
  }

  // ---------------------------------------------------------------------------
  // What the recorder's goroutines do with the locks
  // ---------------------------------------------------------------------------

  /** `won` says whether this call found the recorder still open. */
  datatype Teardown = Teardown(recorder: nat, source: nat, won: bool)

  /** A subscriber's packet handler, by the mutex it takes. */
  datatype Handler = RecorderHandler(recorder: nat) | ViewerHandler(viewer: nat)
  {
    function Mu(): Mutex {
      if RecorderHandler? then RecorderMu(recorder) else ViewerMu(viewer)
    }
  }

  datatype Job =
    | FanOut(source: nat, handlers: seq<Handler>, panicked: seq<Teardown>)
    | PauseOrResume(recorder: nat)
    | WriteItem(recorder: nat, noted: bool, failing: Option<Teardown>)
    | FinaliseOne(who: Teardown)
    | FinaliseAll(whos: seq<Teardown>)
    | SubscribeOrUnsubscribe(source: nat)
    | WriteSwitch                 // RegisterRecorder, UnregisterRecorder, AddSource, AddViewer
    | RemoveSource(source: nat, viewers: seq<nat>)   // stops it and detaches idle viewers
    | FailBySubscriber(who: Teardown)
    // a viewer with no stored unsubscribe function
    | RouteViewer(viewer: nat)    // SwitchViewer, SwitchTo
    | ActivateViewer(viewer: nat, source: nat, replayed: nat)
    // any viewer
    | CloseViewer(viewer: nat, subscribed: Option<nat>)

  function Section(mu: Mutex): seq<Op> {
    [Lock(mu), Unlock(mu)]
  }

  /** The recorder's handler has one critical section, the viewer's two. */
  function Call(h: Handler): seq<Op> {
    if h.RecorderHandler? then Section(h.Mu()) else Section(h.Mu()) + Section(h.Mu())
  }

  function Calls(hs: seq<Handler>): seq<Op> {
    if hs == [] then [] else Call(hs[0]) + Calls(hs[1..])
  }

  function Viewers(vs: seq<nat>): seq<Handler> {
    seq(|vs|, i requires 0 <= i < |vs| => ViewerHandler(vs[i]))
  }

  /** The handlers run under the source's read lock. */
  function Dispatch(s: nat, hs: seq<Handler>): seq<Op> {
    [RLock(SourceMu(s))] + Calls(hs) + [RUnlock(SourceMu(s))]
  }

  /** markFailed: unsubscribe and the bounded wait come after the mutex is gone. */
  function MarkFailed(t: Teardown): seq<Op> {
    Section(RecorderMu(t.recorder)) + if t.won then Section(SourceMu(t.source)) + [AwaitOrTimeout] else []
  }

  function Finalise(t: Teardown): seq<Op> {
    Section(RecorderMu(t.recorder)) +
    if t.won
    then Section(SourceMu(t.source)) + [AwaitOrTimeout]
         + Section(RecorderMu(t.recorder)) + Section(RecorderMu(t.recorder))
    else []
  }

  /** The quarantine hook: look the recorder up under the switch lock, let go,
      then fail it. */
  function Hook(t: Teardown): seq<Op> {
    [RLock(SwitchMu), RUnlock(SwitchMu)] + MarkFailed(t)
  }

  function Hooks(ts: seq<Teardown>): seq<Op> {
    if ts == [] then [] else Hook(ts[0]) + Hooks(ts[1..])
  }

  function Finalises(ts: seq<Teardown>): seq<Op> {
    if ts == [] then [] else Finalise(ts[0]) + Finalises(ts[1..])
  }

  /** The switch lock is held while the source is stopped and each viewer is asked
      for its source and detached. */
  function Removal(s: nat, vs: seq<nat>): seq<Op> {
    [Lock(SwitchMu)] + Section(SourceMu(s)) + Calls(Viewers(vs)) + [Unlock(SwitchMu)]
  }

  /** Consume the slot, subscribe, replay the cached keyframe, publish. */
  function Activation(v: nat, s: nat, replayed: nat): seq<Op> {
    Section(ViewerMu(v)) + Section(SourceMu(s)) + Calls(Viewers(seq(replayed, _ => v))) + Section(ViewerMu(v))
  }

  /** Unsubscribe and the bounded wait come after the mutex is gone. */
  function Closing(v: nat, subscribed: Option<nat>): seq<Op> {
    Section(ViewerMu(v)) + (if subscribed.Some? then Section(SourceMu(subscribed.value)) else []) + [AwaitOrTimeout]
  }

  function Script(j: Job): seq<Op> {
    match j
    case FanOut(s, hs, panicked) =>
      Dispatch(s, hs) + if panicked == [] then [] else Section(SourceMu(s)) + Hooks(panicked)
    case PauseOrResume(r) => Section(RecorderMu(r))
    case WriteItem(r, noted, failing) =>
      Section(RecorderMu(r)) + (if noted then Section(RecorderMu(r)) else [])
      + if failing.Some? then MarkFailed(failing.value) else []
    case FinaliseOne(t) => Finalise(t)
    case FinaliseAll(ts) => [RLock(SwitchMu), RUnlock(SwitchMu)] + Finalises(ts)
    case SubscribeOrUnsubscribe(s) => Section(SourceMu(s))
    case WriteSwitch => Section(SwitchMu)
    case RemoveSource(s, vs) => Removal(s, vs)
    case FailBySubscriber(t) => Hook(t)
    case RouteViewer(v) => [RLock(SwitchMu)] + Section(ViewerMu(v)) + [RUnlock(SwitchMu)]
    case ActivateViewer(v, s, replayed) => Activation(v, s, replayed)
    case CloseViewer(v, subscribed) => Closing(v, subscribed)
  }

  // ---------------------------------------------------------------------------
  // What each of them waits for, in order
  // ---------------------------------------------------------------------------

  function Waits(ops: seq<Op>): seq<Op> {
    if ops == [] then []
    else (if ops[0].Unlock? || ops[0].RUnlock? then [] else [ops[0]]) + Waits(ops[1..])
  }

  lemma {:induction false} WaitsConcat(a: seq<Op>, b: seq<Op>)
    ensures Waits(a + b) == Waits(a) + Waits(b)
  {
    if a == [] {
      assert a + b == b;
    } else {
      assert (a + b)[1..] == a[1..] + b;
      WaitsConcat(a[1..], b);
    }
  }

  lemma WaitsOfSection(mu: Mutex)
    ensures Waits(Section(mu)) == [Lock(mu)]
  {
    assert Section(mu)[1..] == [Unlock(mu)] && [Unlock(mu)][1..] == [];
    assert Waits([Unlock(mu)]) == [];
  }

  lemma WaitsOfOne(op: Op)
    ensures Waits([op]) == if op.Unlock? || op.RUnlock? then [] else [op]
  {
    assert [op][1..] == [];
  }

  lemma MarkFailedWaits(t: Teardown)
    ensures var r, s := Lock(RecorderMu(t.recorder)), Lock(SourceMu(t.source));
            Waits(MarkFailed(t)) == if t.won then [r, s, AwaitOrTimeout] else [r]
  {
    var rs, ss, w := Section(RecorderMu(t.recorder)), Section(SourceMu(t.source)), [AwaitOrTimeout];
    WaitsOfSection(RecorderMu(t.recorder));
    WaitsOfSection(SourceMu(t.source));
    WaitsOfOne(AwaitOrTimeout);
    WaitsConcat(ss, w);
    WaitsConcat(rs, if t.won then ss + w else []);
  }

  lemma FinaliseWaits(t: Teardown)
    ensures var r, s := Lock(RecorderMu(t.recorder)), Lock(SourceMu(t.source));
            Waits(Finalise(t)) == if t.won then [r, s, AwaitOrTimeout, r, r] else [r]
  {
    var rs, ss, w := Section(RecorderMu(t.recorder)), Section(SourceMu(t.source)), [AwaitOrTimeout];
    WaitsOfSection(RecorderMu(t.recorder));
    WaitsOfSection(SourceMu(t.source));
    WaitsOfOne(AwaitOrTimeout);
    WaitsConcat(ss, w);
    WaitsConcat(ss + w, rs);
    WaitsConcat(ss + w + rs, rs);
    WaitsConcat(rs, if t.won then ss + w + rs + rs else []);
  }

  /** markFailed and Finalise lock the recorder, and if they won, the source and then
      the wait; Finalise comes back for the recorder twice. */
  lemma TeardownWaits(t: Teardown)
    ensures var r, s := Lock(RecorderMu(t.recorder)), Lock(SourceMu(t.source));
            && Waits(MarkFailed(t)) == (if t.won then [r, s, AwaitOrTimeout] else [r])
            && Waits(Finalise(t)) == (if t.won then [r, s, AwaitOrTimeout, r, r] else [r])
            && Waits(Hook(t)) == [RLock(SwitchMu)] + Waits(MarkFailed(t))
  {
    MarkFailedWaits(t);
    FinaliseWaits(t);
    WaitsOfLookup();
    WaitsConcat([RLock(SwitchMu), RUnlock(SwitchMu)], MarkFailed(t));
  }

  lemma WaitsOfLookup()
    ensures Waits([RLock(SwitchMu), RUnlock(SwitchMu)]) == [RLock(SwitchMu)]
  {
    WaitsOfOne(RUnlock(SwitchMu));
    assert [RLock(SwitchMu), RUnlock(SwitchMu)][1..] == [RUnlock(SwitchMu)];
  }

  /** Removal holds the switch while it locks the source and asks every viewer. */
  lemma RemovalWaits(s: nat, vs: seq<nat>)
    ensures Waits(Removal(s, vs)) == [Lock(SwitchMu), Lock(SourceMu(s))] + CallLocks(Viewers(vs))
  {
    var head := [Lock(SwitchMu)];
    WaitsOfOne(Lock(SwitchMu));
    WaitsOfSection(SourceMu(s));
    CallsWait(Viewers(vs));
    WaitsOfOne(Unlock(SwitchMu));
    WaitsConcat(head, Section(SourceMu(s)));
    WaitsConcat(head + Section(SourceMu(s)), Calls(Viewers(vs)));
    WaitsConcat(head + Section(SourceMu(s)) + Calls(Viewers(vs)), [Unlock(SwitchMu)]);
  }

  /** An activation locks the viewer, the source, and the viewer twice for every
      replayed packet and once more. */
  lemma ActivationWaits(v: nat, s: nat, replayed: nat)
    ensures Waits(Activation(v, s, replayed))
         == [Lock(ViewerMu(v)), Lock(SourceMu(s))] + CallLocks(Viewers(seq(replayed, _ => v))) + [Lock(ViewerMu(v))]
  {
    var mine, calls := Section(ViewerMu(v)), Calls(Viewers(seq(replayed, _ => v)));
    WaitsOfSection(ViewerMu(v));
    WaitsOfSection(SourceMu(s));
    CallsWait(Viewers(seq(replayed, _ => v)));
    WaitsConcat(mine, Section(SourceMu(s)));
    WaitsConcat(mine + Section(SourceMu(s)), calls);
    WaitsConcat(mine + Section(SourceMu(s)) + calls, mine);
  }

  /** Close locks the viewer, then the source it was subscribed to, then waits. */
  lemma ClosingWaits(v: nat, subscribed: Option<nat>)
    ensures Waits(Closing(v, subscribed))
         == [Lock(ViewerMu(v))] + (if subscribed.Some? then [Lock(SourceMu(subscribed.value))] else []) + [AwaitOrTimeout]
  {
    var unsub := if subscribed.Some? then Section(SourceMu(subscribed.value)) else [];
    WaitsOfSection(ViewerMu(v));
    if subscribed.Some? {
      WaitsOfSection(SourceMu(subscribed.value));
    }
    WaitsOfOne(AwaitOrTimeout);
    WaitsConcat(Section(ViewerMu(v)), unsub);
    WaitsConcat(Section(ViewerMu(v)) + unsub, [AwaitOrTimeout]);
  }

  /** Every handler's mutex is taken, once by a recorder's and twice by a viewer's. */
  lemma {:induction false} CallsWait(hs: seq<Handler>)
    ensures Waits(Calls(hs)) == CallLocks(hs)
  {
    if hs != [] {
      var mu := hs[0].Mu();
      WaitsOfSection(mu);
      WaitsConcat(Section(mu), Section(mu));
      CallsWait(hs[1..]);
      WaitsConcat(Call(hs[0]), Calls(hs[1..]));
    }
  }

  function CallLocks(hs: seq<Handler>): seq<Op> {
    if hs == [] then []
    else [Lock(hs[0].Mu())] + (if hs[0].ViewerHandler? then [Lock(hs[0].Mu())] else []) + CallLocks(hs[1..])
  }

  lemma DispatchWaits(s: nat, hs: seq<Handler>)
    ensures Waits(Dispatch(s, hs)) == [RLock(SourceMu(s))] + CallLocks(hs)
  {
    CallsWait(hs);
    WaitsOfOne(RLock(SourceMu(s)));
    WaitsOfOne(RUnlock(SourceMu(s)));
    WaitsConcat([RLock(SourceMu(s))], Calls(hs));
    WaitsConcat([RLock(SourceMu(s))] + Calls(hs), [RUnlock(SourceMu(s))]);
  }

  /** A fan-out takes the source's read lock, every handler's mutex under it and, if
      anyone panicked, the source's lock again and every hook's locks. */
  lemma FanOutWaits(s: nat, hs: seq<Handler>, panicked: seq<Teardown>)
    ensures Waits(Script(FanOut(s, hs, panicked)))
         == [RLock(SourceMu(s))] + CallLocks(hs)
            + if panicked == [] then [] else [Lock(SourceMu(s))] + HookLocks(panicked)
  {
    DispatchWaits(s, hs);
    if panicked == [] {
      assert Dispatch(s, hs) + [] == Dispatch(s, hs);
    } else {
      WaitsOfSection(SourceMu(s));
      HooksWait(panicked);
      WaitsConcat(Section(SourceMu(s)), Hooks(panicked));
      WaitsConcat(Dispatch(s, hs), Section(SourceMu(s)) + Hooks(panicked));
    }
  }

  function HookLocks(ts: seq<Teardown>): seq<Op> {
    if ts == [] then [] else [RLock(SwitchMu)] + Waits(MarkFailed(ts[0])) + HookLocks(ts[1..])
  }

  lemma {:induction false} HooksWait(ts: seq<Teardown>)
    ensures Waits(Hooks(ts)) == HookLocks(ts)
  {
    if ts != [] {
      TeardownWaits(ts[0]);
      HooksWait(ts[1..]);
      WaitsConcat(Hook(ts[0]), Hooks(ts[1..]));
    }
  }

  /** The writer locks the recorder for the packet, again to note a written block, and
      fails it if it must; finalising all takes every recorder's locks in turn. */
  lemma WriterWaits(r: nat, noted: bool, failing: Option<Teardown>, ts: seq<Teardown>)
    ensures Waits(Script(WriteItem(r, noted, failing)))
         == [Lock(RecorderMu(r))] + (if noted then [Lock(RecorderMu(r))] else [])
            + if failing.Some? then Waits(MarkFailed(failing.value)) else []
    ensures ts != [] ==> Waits(Finalises(ts)) == Waits(Finalise(ts[0])) + Waits(Finalises(ts[1..]))
  {
    var rs := Section(RecorderMu(r));
    WaitsOfSection(RecorderMu(r));
    WaitsConcat(rs, if noted then rs else []);
    WaitsConcat(rs + (if noted then rs else []), if failing.Some? then MarkFailed(failing.value) else []);
    if ts != [] {
      WaitsConcat(Finalise(ts[0]), Finalises(ts[1..]));
    }
  }

  function Scripts(jobs: seq<Job>): seq<Op> {
    if jobs == [] then [] else Script(jobs[0]) + Scripts(jobs[1..])
  }

  predicate Safe(ops: seq<Op>) {
    Ordered(SwitchFirst, ops, {}, {})
  }

  lemma {:induction false} OrderedThen(o: Order, a: seq<Op>, b: seq<Op>, shared: set<Mutex>, exclusive: set<Mutex>)
    requires Ordered(o, a, shared, exclusive) && Ordered(o, b, {}, {})
    ensures Ordered(o, a + b, shared, exclusive)
  {
    if a == [] {
      assert a + b == b;
      assert shared == {} && exclusive == {};
    } else {
      assert (a + b)[1..] == a[1..] + b;
      match a[0]
      case Lock(mu) => OrderedThen(o, a[1..], b, shared, exclusive + {mu});
      case RLock(mu) => OrderedThen(o, a[1..], b, shared + {mu}, exclusive);
      case Unlock(mu) => OrderedThen(o, a[1..], b, shared, exclusive - {mu});
      case RUnlock(mu) => OrderedThen(o, a[1..], b, shared - {mu}, exclusive);
      case AwaitOrTimeout => OrderedThen(o, a[1..], b, shared, exclusive);
    }
  }

  lemma SafeThen(a: seq<Op>, b: seq<Op>)
    requires Safe(a) && Safe(b)
    ensures Safe(a + b)
  {
    OrderedThen(SwitchFirst, a, b, {}, {});
  }

  /** Locking and releasing one mutex above everything held. */
  lemma SectionThen(o: Order, mu: Mutex, b: seq<Op>, shared: set<Mutex>, exclusive: set<Mutex>)
    requires Ordered(o, b, shared, exclusive) && Above(o, mu, shared + exclusive)
    ensures Ordered(o, Section(mu) + b, shared, exclusive)
  {
    var ops := Section(mu) + b;
    assert ops[1..] == [Unlock(mu)] + b && ops[1..][1..] == b;
    assert mu !in exclusive;
    assert exclusive + {mu} - {mu} == exclusive;
  }

  lemma SafeSection(mu: Mutex)
    ensures Safe(Section(mu))
  {
    assert Safe([]);
    SectionThen(SwitchFirst, mu, [], {}, {});
    assert Section(mu) + [] == Section(mu);
  }

  lemma SafeLookup()
    ensures Safe([RLock(SwitchMu), RUnlock(SwitchMu)])
  {
    assert [RLock(SwitchMu), RUnlock(SwitchMu)][1..] == [RUnlock(SwitchMu)];
    assert [RUnlock(SwitchMu)][1..] == [];
    assert Ordered(SwitchFirst, [RUnlock(SwitchMu)], {SwitchMu}, {}) by {
      assert {SwitchMu} - {SwitchMu} == {};
    }
  }

  lemma SafeAwait()
    ensures Safe([AwaitOrTimeout])
  {
  }

  lemma SafeMarkFailed(t: Teardown)
    ensures Safe(MarkFailed(t))
  {
    SafeSection(RecorderMu(t.recorder));
    SafeSection(SourceMu(t.source));
    SafeAwait();
    SafeThen(Section(SourceMu(t.source)), [AwaitOrTimeout]);
    SafeThen(Section(RecorderMu(t.recorder)), if t.won then Section(SourceMu(t.source)) + [AwaitOrTimeout] else []);
  }

  lemma SafeFinalise(t: Teardown)
    ensures Safe(Finalise(t))
  {
    var r, s := Section(RecorderMu(t.recorder)), Section(SourceMu(t.source));
    SafeSection(RecorderMu(t.recorder));
    SafeSection(SourceMu(t.source));
    SafeAwait();
    SafeThen(s, [AwaitOrTimeout]);
    SafeThen(s + [AwaitOrTimeout], r);
    SafeThen(s + [AwaitOrTimeout] + r, r);
    SafeThen(r, if t.won then s + [AwaitOrTimeout] + r + r else []);
  }

  lemma SafeHook(t: Teardown)
    ensures Safe(Hook(t))
  {
    SafeLookup();
    SafeMarkFailed(t);
    SafeThen([RLock(SwitchMu), RUnlock(SwitchMu)], MarkFailed(t));
  }

  lemma {:induction false} SafeHooks(ts: seq<Teardown>)
    ensures Safe(Hooks(ts))
  {
    if ts != [] {
      SafeHook(ts[0]);
      SafeHooks(ts[1..]);
      SafeThen(Hook(ts[0]), Hooks(ts[1..]));
    }
  }

  lemma {:induction false} SafeFinalises(ts: seq<Teardown>)
    ensures Safe(Finalises(ts))
  {
    if ts != [] {
      SafeFinalise(ts[0]);
      SafeFinalises(ts[1..]);
      SafeThen(Finalise(ts[0]), Finalises(ts[1..]));
    }
  }

  /** Handlers whose mutexes are above everything held. */
  predicate AllAbove(o: Order, hs: seq<Handler>, held: set<Mutex>) {
    forall i :: 0 <= i < |hs| ==> Above(o, hs[i].Mu(), held)
  }

  lemma CallThen(o: Order, h: Handler, b: seq<Op>, shared: set<Mutex>, exclusive: set<Mutex>)
    requires Ordered(o, b, shared, exclusive) && Above(o, h.Mu(), shared + exclusive)
    ensures Ordered(o, Call(h) + b, shared, exclusive)
  {
    var mu := h.Mu();
    SectionThen(o, mu, b, shared, exclusive);
    if h.ViewerHandler? {
      SectionThen(o, mu, Section(mu) + b, shared, exclusive);
      assert Call(h) + b == Section(mu) + (Section(mu) + b);
    }
  }

  lemma {:induction false} CallsThen(o: Order, hs: seq<Handler>, b: seq<Op>, shared: set<Mutex>, exclusive: set<Mutex>)
    requires Ordered(o, b, shared, exclusive) && AllAbove(o, hs, shared + exclusive)
    ensures Ordered(o, Calls(hs) + b, shared, exclusive)
  {
    if hs == [] {
      assert Calls(hs) + b == b;
    } else {
      CallsThen(o, hs[1..], b, shared, exclusive);
      CallThen(o, hs[0], Calls(hs[1..]) + b, shared, exclusive);
      assert Calls(hs) + b == Call(hs[0]) + (Calls(hs[1..]) + b);
    }
  }

  /** A fan-out is in order if the handlers' mutexes are above the source's. */
  lemma DispatchOrdered(o: Order, s: nat, hs: seq<Handler>)
    requires AllAbove(o, hs, {SourceMu(s)})
    ensures Ordered(o, Dispatch(s, hs), {}, {})
  {
    var end := [RUnlock(SourceMu(s))];
    assert end[1..] == [] && {SourceMu(s)} - {SourceMu(s)} == {};
    assert Ordered(o, end, {SourceMu(s)}, {});
    CallsThen(o, hs, end, {SourceMu(s)}, {});
    assert Dispatch(s, hs)[1..] == Calls(hs) + end && {} + {SourceMu(s)} == {SourceMu(s)};
  }

  lemma SafeFanOut(s: nat, hs: seq<Handler>, panicked: seq<Teardown>)
    ensures Safe(Script(FanOut(s, hs, panicked)))
  {
    DispatchOrdered(SwitchFirst, s, hs);
    SafeSection(SourceMu(s));
    SafeHooks(panicked);
    SafeThen(Section(SourceMu(s)), Hooks(panicked));
    SafeThen(Dispatch(s, hs), if panicked == [] then [] else Section(SourceMu(s)) + Hooks(panicked));
  }

  lemma SafeRemoval(s: nat, vs: seq<nat>)
    ensures Safe(Removal(s, vs))
  {
    var end := [Unlock(SwitchMu)];
    assert end[1..] == [] && {SwitchMu} - {SwitchMu} == {};
    assert Ordered(SwitchFirst, end, {}, {SwitchMu});
    CallsThen(SwitchFirst, Viewers(vs), end, {}, {SwitchMu});
    SectionThen(SwitchFirst, SourceMu(s), Calls(Viewers(vs)) + end, {}, {SwitchMu});
    assert Removal(s, vs)[1..] == Section(SourceMu(s)) + (Calls(Viewers(vs)) + end) && {} + {SwitchMu} == {SwitchMu};
  }

  lemma SafeRouting(v: nat)
    ensures Safe(Script(RouteViewer(v)))
  {
    var end := [RUnlock(SwitchMu)];
    assert end[1..] == [] && {SwitchMu} - {SwitchMu} == {};
    assert Ordered(SwitchFirst, end, {SwitchMu}, {});
    SectionThen(SwitchFirst, ViewerMu(v), end, {SwitchMu}, {});
    var rest := Section(ViewerMu(v)) + end;
    var ops := [RLock(SwitchMu)] + rest;
    assert ops == Script(RouteViewer(v)) && ops[1..] == rest && {} + {SwitchMu} == {SwitchMu};
  }

  lemma SafeActivation(v: nat, s: nat, replayed: nat)
    ensures Safe(Activation(v, s, replayed))
  {
    var mine, calls := Section(ViewerMu(v)), Calls(Viewers(seq(replayed, _ => v)));
    SafeSection(ViewerMu(v));
    SafeSection(SourceMu(s));
    assert Safe([]);
    CallsThen(SwitchFirst, Viewers(seq(replayed, _ => v)), [], {}, {});
    assert calls + [] == calls;
    SafeThen(mine, Section(SourceMu(s)));
    SafeThen(mine + Section(SourceMu(s)), calls);
    SafeThen(mine + Section(SourceMu(s)) + calls, mine);
  }

  lemma SafeClosing(v: nat, subscribed: Option<nat>)
    ensures Safe(Closing(v, subscribed))
  {
    SafeSection(ViewerMu(v));
    SafeAwait();
    var unsub := if subscribed.Some? then Section(SourceMu(subscribed.value)) else [];
    if subscribed.Some? {
      SafeSection(SourceMu(subscribed.value));
    }
    SafeThen(Section(ViewerMu(v)), unsub);
    SafeThen(Section(ViewerMu(v)) + unsub, [AwaitOrTimeout]);
  }

  lemma SafeScript(j: Job)
    ensures Safe(Script(j))
  {
    match j
    case FanOut(s, hs, panicked) => SafeFanOut(s, hs, panicked);
    case PauseOrResume(r) => SafeSection(RecorderMu(r));
    case WriteItem(r, noted, failing) =>
      SafeSection(RecorderMu(r));
      if failing.Some? {
        SafeMarkFailed(failing.value);
      }
      SafeThen(Section(RecorderMu(r)), if noted then Section(RecorderMu(r)) else []);
      SafeThen(Section(RecorderMu(r)) + (if noted then Section(RecorderMu(r)) else []),
               if failing.Some? then MarkFailed(failing.value) else []);
    case FinaliseOne(t) => SafeFinalise(t);
    case FinaliseAll(ts) =>
      SafeLookup();
      SafeFinalises(ts);
      SafeThen([RLock(SwitchMu), RUnlock(SwitchMu)], Finalises(ts));
    case SubscribeOrUnsubscribe(s) => SafeSection(SourceMu(s));
    case WriteSwitch => SafeSection(SwitchMu);
    case RemoveSource(s, vs) => SafeRemoval(s, vs);
    case FailBySubscriber(t) => SafeHook(t);
    case RouteViewer(v) => SafeRouting(v);
    case ActivateViewer(v, s, replayed) => SafeActivation(v, s, replayed);
    case CloseViewer(v, subscribed) => SafeClosing(v, subscribed);
  }

  lemma {:induction false} SafeScripts(jobs: seq<Job>)
    ensures Safe(Scripts(jobs))
  {
    if jobs != [] {
      SafeScript(jobs[0]);
      SafeScripts(jobs[1..]);
      SafeThen(Script(jobs[0]), Scripts(jobs[1..]));
    }
  }

  function Spawn(work: seq<seq<Job>>): seq<Thread> {
    seq(|work|, i requires 0 <= i < |work| => Thread(Scripts(work[i]), {}, {}))
  }

  lemma SpawnOrdered(work: seq<seq<Job>>)
    ensures AllOrdered(SwitchFirst, Spawn(work))
  {
    forall i | 0 <= i < |work|
      ensures Safe(Scripts(work[i]))
    {
      SafeScripts(work[i]);
    }
  }

  /** A recorder's or a viewer's. */
  predicate Leaf(mu: Mutex) {
    mu.RecorderMu? || mu.ViewerMu?
  }

  lemma LeafHolderNeverWaits(st: seq<Thread>, i: nat, mu: Mutex)
    requires AllOrdered(SwitchFirst, st) && i < |st| && Leaf(mu) && mu in st[i].Held()
    ensures !st[i].Acquires()
  {
    assert Ordered(SwitchFirst, st[i].todo, st[i].shared, st[i].exclusive);
  }

  lemma RecorderApartFromSwitch(st: seq<Thread>, i: nat)
    requires AllOrdered(SwitchFirst, st) && i < |st| && st[i].AtRecorder()
    ensures SwitchMu !in st[i].Held()
  {
    assert Ordered(SwitchFirst, st[i].todo, st[i].shared, st[i].exclusive);
  }

  /** Any number of goroutines doing any of these jobs, in any interleaving: a
      goroutine holding a recorder's or a viewer's mutex never waits for another lock,
      one that enters or leaves a recorder's section does not hold the switch's lock,
      someone can move as long as anyone has work left, and everyone can finish. */
  lemma TeardownCannotDeadlock(work: seq<seq<Job>>, schedule: seq<nat>)
    ensures var st := Run(Spawn(work), schedule);
            && (forall i, mu :: 0 <= i < |st| && mu in st[i].Held() && Leaf(mu) ==> !st[i].Acquires())
            && (forall i :: 0 <= i < |st| && st[i].AtRecorder() ==> SwitchMu !in st[i].Held())
            && (AllDone(st) || exists k: nat :: Enabled(st, k))
            && (exists more :: AllDone(Run(Spawn(work), schedule + more)))
  {
    var start := Spawn(work);
    SpawnOrdered(work);
    RunStaysOrdered(SwitchFirst, start, schedule);
    var st := Run(start, schedule);
    forall i, mu | 0 <= i < |st| && mu in st[i].Held() && Leaf(mu)
      ensures !st[i].Acquires()
    {
      LeafHolderNeverWaits(st, i, mu);
    }
    forall i | 0 <= i < |st| && st[i].AtRecorder()
      ensures SwitchMu !in st[i].Held()
    {
      RecorderApartFromSwitch(st, i);
    }
    if !AllDone(st) {
      var i :| 0 <= i < |st| && st[i].todo != [];
      SomeoneCanMove(SwitchFirst, st, i);
    }
    var more := AllCanFinish(SwitchFirst, st);
    RunConcat(start, schedule, more);
  }

  // ---------------------------------------------------------------------------
  // A viewer that unsubscribes under its own mutex
  // ---------------------------------------------------------------------------

  /** SwitchTo, activateSource and DetachSource with a stored unsubscribe function. */
  function UnsubscribeUnder(v: nat, s: nat): seq<Op> {
    [Lock(ViewerMu(v)), Lock(SourceMu(s)), Unlock(SourceMu(s)), Unlock(ViewerMu(v))]
  }

  /** Viewer `v` leaves source `s` while source `from` fans out to `hs`. */
  function LeavingDuring(v: nat, s: nat, from: nat, hs: seq<Handler>): seq<Thread> {
    [Thread(UnsubscribeUnder(v, s), {}, {}), Thread(Dispatch(from, hs), {}, {})]
  }

  ghost predicate Stuck(st: seq<Thread>) {
    !AllDone(st) && forall k: nat :: !Enabled(st, k)
  }

  ghost predicate Sticks(st: seq<Thread>, schedule: seq<nat>) {
    Stuck(Run(st, schedule))
  }

  lemma LeavingOrdered(o: Order, v: nat, s: nat, from: nat, hs: seq<Handler>)
    requires Rank(o, ViewerMu(v)) < Rank(o, SourceMu(s)) && AllAbove(o, hs, {SourceMu(from)})
    ensures AllOrdered(o, LeavingDuring(v, s, from, hs))
  {
    DispatchOrdered(o, from, hs);
    var ops, vm, sm := UnsubscribeUnder(v, s), ViewerMu(v), SourceMu(s);
    assert ops[1..] == [Lock(sm), Unlock(sm), Unlock(vm)] && ops[1..][1..] == [Unlock(sm), Unlock(vm)];
    assert ops[1..][1..][1..] == [Unlock(vm)] && [Unlock(vm)][1..] == [];
    assert {vm, sm} - {sm} == {vm} && {vm} - {vm} == {} && {vm} + {sm} == {vm, sm};
    assert Ordered(o, [Unlock(vm)], {}, {vm});
    assert Ordered(o, [Unlock(sm), Unlock(vm)], {}, {vm, sm});
    assert Ordered(o, [Lock(sm), Unlock(sm), Unlock(vm)], {}, {vm});
  }

  lemma OrderedNeverStuck(o: Order, st: seq<Thread>, schedule: seq<nat>)
    requires AllOrdered(o, st)
    ensures !Stuck(Run(st, schedule))
  {
    RunStaysOrdered(o, st, schedule);
    var now := Run(st, schedule);
    if !AllDone(now) {
      var i :| 0 <= i < |now| && now[i].todo != [];
      SomeoneCanMove(o, now, i);
    }
  }

  lemma {:induction false} ApartNeverStuck(v: nat, s: nat, from: nat, hs: seq<Handler>, schedule: seq<nat>)
    requires s != from || ViewerHandler(v) !in hs
    ensures !Stuck(Run(LeavingDuring(v, s, from, hs), schedule))
  {
    var o := if s == from then ViewerFirst(v) else SourceFirst(from);
    forall i | 0 <= i < |hs|
      ensures Above(o, hs[i].Mu(), {SourceMu(from)})
    {
      if s == from && hs[i].ViewerHandler? {
        assert hs[i] in hs;
      }
    }
    LeavingOrdered(o, v, s, from, hs);
    OrderedNeverStuck(o, LeavingDuring(v, s, from, hs), schedule);
  }

  /** The fan-out alone, up to its handler `i`. */
  function Reached(from: nat, hs: seq<Handler>, i: nat): Thread
    requires i <= |hs|
  {
    Thread(Calls(hs[i..]) + [RUnlock(SourceMu(from))], {SourceMu(from)}, {})
  }

  lemma SectionAlone(first: Thread, mu: Mutex, rest: seq<Op>, shared: set<Mutex>)
    requires first.Held() == {} && mu !in shared
    ensures Run([first, Thread(Section(mu) + rest, shared, {})], [1, 1]) == [first, Thread(rest, shared, {})]
  {
    var st := [first, Thread(Section(mu) + rest, shared, {})];
    var ops := Section(mu) + rest;
    assert ops[0] == Lock(mu) && ops[1..] == [Unlock(mu)] + rest && ops[1..][1..] == rest;
    assert Enabled(st, 1);
    var st1 := StepThread(st, 1);
    assert {} + {mu} == {mu} && {mu} - {mu} == {};
    assert st1 == [first, Thread([Unlock(mu)] + rest, shared, {mu})];
    assert StepThread(st1, 1) == [first, Thread(rest, shared, {})];
    assert [1, 1][..1] == [1] && [1][..0] == [];
    assert Run(st, [1]) == st1;
  }

  /** One handler called, with nobody else holding anything. */
  lemma CallAlone(first: Thread, h: Handler, rest: seq<Op>, s: nat) returns (schedule: seq<nat>)
    requires first.Held() == {}
    ensures Run([first, Thread(Call(h) + rest, {SourceMu(s)}, {})], schedule) == [first, Thread(rest, {SourceMu(s)}, {})]
  {
    var mu := h.Mu();
    if h.RecorderHandler? {
      SectionAlone(first, mu, rest, {SourceMu(s)});
      schedule := [1, 1];
    } else {
      var st := [first, Thread(Section(mu) + (Section(mu) + rest), {SourceMu(s)}, {})];
      assert Call(h) + rest == Section(mu) + (Section(mu) + rest);
      SectionAlone(first, mu, Section(mu) + rest, {SourceMu(s)});
      SectionAlone(first, mu, rest, {SourceMu(s)});
      RunConcat(st, [1, 1], [1, 1]);
      schedule := [1, 1] + [1, 1];
    }
  }

  lemma {:induction false} FanOutReaches(v: nat, s: nat, from: nat, hs: seq<Handler>, i: nat) returns (schedule: seq<nat>)
    requires i <= |hs|
    ensures Run(LeavingDuring(v, s, from, hs), schedule) == [Thread(UnsubscribeUnder(v, s), {}, {}), Reached(from, hs, i)]
  {
    var st, first := LeavingDuring(v, s, from, hs), Thread(UnsubscribeUnder(v, s), {}, {});
    if i == 0 {
      schedule := [1];
      assert [1][..0] == [] && Run(st, []) == st;
      assert Enabled(st, 1);
      assert hs[0..] == hs && Dispatch(from, hs)[1..] == Calls(hs) + [RUnlock(SourceMu(from))];
      assert {} + {SourceMu(from)} == {SourceMu(from)};
      assert StepThread(st, 1) == [first, Reached(from, hs, 0)];
    } else {
      var before := FanOutReaches(v, s, from, hs, i - 1);
      var rest := Calls(hs[i..]) + [RUnlock(SourceMu(from))];
      assert hs[i - 1..][1..] == hs[i..] && hs[i - 1..][0] == hs[i - 1];
      assert Calls(hs[i - 1..]) + [RUnlock(SourceMu(from))] == Call(hs[i - 1]) + rest;
      var step := CallAlone(first, hs[i - 1], rest, from);
      RunConcat(st, before, step);
      schedule := before + step;
    }
  }

  /** The fan-out holds the source's lock at the viewer's handler; the viewer takes
      its own mutex; neither can go on. */
  lemma LeavingDeadlocks(v: nat, s: nat, hs: seq<Handler>) returns (schedule: seq<nat>)
    requires ViewerHandler(v) in hs
    ensures Stuck(Run(LeavingDuring(v, s, s, hs), schedule))
  {
    var i :| 0 <= i < |hs| && hs[i] == ViewerHandler(v);
    var before := FanOutReaches(v, s, s, hs, i);
    var st := LeavingDuring(v, s, s, hs);
    var now := Run(st, before);
    assert now[1].todo[0] == Lock(ViewerMu(v));
    var stuck := StepThread(now, 0);
    assert stuck[0] == Thread(UnsubscribeUnder(v, s)[1..], {}, {ViewerMu(v)}) && stuck[1] == now[1];
    assert !Enabled(stuck, 0) by {
      assert SourceMu(s) in stuck[1].Held();
    }
    assert !Enabled(stuck, 1) by {
      assert ViewerMu(v) in stuck[0].Held();
    }
    schedule := before + [0];
    assert schedule[..|schedule| - 1] == before;
  }

  /** A viewer that unsubscribes from a source under its own mutex, while a source is
      fanning out to any handlers, can end in a deadlock exactly when it is the same
      source and the viewer is among the handlers. */
  lemma ViewerDeadlocksIff(v: nat, s: nat, from: nat, hs: seq<Handler>)
    ensures (exists schedule: seq<nat> :: Sticks(LeavingDuring(v, s, from, hs), schedule))
            <==> s == from && ViewerHandler(v) in hs
  {
    if s == from && ViewerHandler(v) in hs {
      var schedule := LeavingDeadlocks(v, s, hs);
      assert Sticks(LeavingDuring(v, s, from, hs), schedule);
    } else {
      forall schedule: seq<nat>
        ensures !Sticks(LeavingDuring(v, s, from, hs), schedule)
      {
        ApartNeverStuck(v, s, from, hs, schedule);
      }
    }
  }
}
