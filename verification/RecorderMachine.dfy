// Every interleaving of the async recorder: the fan-out goroutine offering
// packets, the writer goroutine, Pause and Resume, and whoever tears the recorder
// down (Finalise, the quarantine hook, or the writer itself).
//
// A step is one critical section, one channel operation, or one call made outside
// the mutex. An action that is not possible in a state leaves it unchanged, so a
// run is any sequence of actions whatever.
module RecorderMachine {
  import opened Media
  import opened RecorderCore

  /** Where the writer goroutine stands. */
  datatype Writer =
    | Waiting                 // at the channel receive
    | Holding(item: Item)     // received, about to assemble
    | Writing                 // block handed over, write not yet returned
    | Noting(ok: bool)        // write returned, outcome not yet noted
    | Failing(panic: bool)    // about to call markFailed
    | Stopping(panic: bool)   // won markFailed: about to close queue and tracks
    | Exited                  // writerDone closed

  /** Where the goroutine that closed the recorder from outside stands. */
  datatype Closer =
    | NoCloser
    | Closing                     // past the first critical section
    | Draining                    // queue closed, waiting for the writer
    | Releasing(timedOut: bool)   // wait over, about to close the tracks
    | Done(timedOut: bool)

  datatype Cause = StillOpen | Finalised | Quarantined | WriteErrors | WriterPanic

  /** What happened so far, for the statements below. */
  datatype History = History(
    offered: nat,             // packets that arrived while recording
    enqueued: seq<Item>,
    taken: seq<Item>,         // received by the writer
    handled: seq<Item>,       // assembled and written by the writer
    outcomes: seq<bool>,      // noted block-write outcomes, both tracks
    queueCloses: nat,
    sentAfterClose: bool,
    panicked: bool)

  datatype Sys = Sys(rec: Rec, writer: Writer, closer: Closer, cause: Cause, hist: History)

  datatype Action =
    | Arrive(item: Item) | DoPause | DoResume
    | Take | Assembled | Wrote(ok: bool) | Noted | Panic | FailLock | FailRest | Leave
    | CloseLock(finalise: bool) | CloseQueue | DrainDone | DrainTimeout | CloseTracks

  const START: Sys :=
    Sys(NewRec(true), Waiting, NoCloser, StillOpen, History(0, [], [], [], [], 0, false, false))

  function ArriveStep(s: Sys, item: Item): Sys {
    var g := s.rec.gate;
    if g.closed || g.state != Recording then s.(rec := Offer(s.rec, item))
    else
      var r := Offer(s.rec, item);
      var sent := |r.gate.chan| > |g.chan|;
      s.(rec := r,
         hist := s.hist.(offered := s.hist.offered + 1,
                         enqueued := if sent then s.hist.enqueued + [item] else s.hist.enqueued,
                         sentAfterClose := s.hist.sentAfterClose || (sent && s.hist.queueCloses > 0)))
  }

  function TakeStep(s: Sys): Sys {
    if s.writer != Waiting || s.rec.gate.chan == [] then s
    else
      var item := s.rec.gate.chan[0];
      s.(rec := Taken(s.rec), writer := Holding(item), hist := s.hist.(taken := s.hist.taken + [item]))
  }

  function AssembledStep(s: Sys): Sys {
    if !s.writer.Holding? then s
    else
      var r := Handle(s.rec, s.writer.item);
      s.(rec := r,
         writer := if Blocks(r) > Blocks(s.rec) then Writing else Waiting,
         hist := s.hist.(handled := s.hist.handled + [s.writer.item]))
  }

  function NotedStep(s: Sys): Sys {
    if !s.writer.Noting? then s
    else
      var ok := s.writer.ok;
      var g := Note(s.rec.gate, ok);
      s.(rec := s.rec.(gate := g),
         writer := if Tripped(g, ok) then Failing(false) else Waiting,
         hist := s.hist.(outcomes := s.hist.outcomes + [ok]))
  }

  function PanicStep(s: Sys): Sys {
    if s.writer.Holding? || s.writer.Writing?
    then s.(writer := Failing(true), hist := s.hist.(panicked := true))
    else s
  }

  function FailLockStep(s: Sys): Sys {
    if !s.writer.Failing? then s
    else if s.rec.gate.closed then s.(writer := if s.writer.panic then Exited else Waiting)
    else s.(rec := s.rec.(gate := Fail(s.rec.gate)),
            writer := Stopping(s.writer.panic),
            cause := if s.writer.panic then WriterPanic else WriteErrors)
  }

  function FailRestStep(s: Sys): Sys {
    if !s.writer.Stopping? then s
    else s.(writer := if s.writer.panic then Exited else Waiting,
            hist := s.hist.(queueCloses := s.hist.queueCloses + 1))
  }

  function CloseLockStep(s: Sys, finalise: bool): Sys {
    if s.rec.gate.closed then s
    else s.(rec := s.rec.(gate := if finalise then StopIntake(s.rec.gate) else Fail(s.rec.gate)),
            closer := Closing,
            cause := if finalise then Finalised else Quarantined)
  }

  function CloserStep(s: Sys, a: Action): Sys {
    match a
    case CloseQueue =>
      if s.closer != Closing then s
      else s.(closer := Draining, hist := s.hist.(queueCloses := s.hist.queueCloses + 1))
    case DrainDone =>
      if s.closer == Draining && s.writer == Exited then s.(closer := Releasing(false)) else s
    case DrainTimeout =>
      if s.closer == Draining then s.(closer := Releasing(true)) else s
    case CloseTracks =>
      if !s.closer.Releasing? then s
      else s.(rec := s.rec.(gate := DropTracks(s.rec.gate)), closer := Done(s.closer.timedOut))
    case _ => s
  }

  function Step(s: Sys, a: Action): Sys {
    match a
    case Arrive(item) => ArriveStep(s, item)
    case DoPause => s.(rec := Pause(s.rec))
    case DoResume => s.(rec := Resume(s.rec))
    case Take => TakeStep(s)
    case Assembled => AssembledStep(s)
    case Wrote(ok) => if s.writer == Writing then s.(writer := Noting(ok)) else s
    case Noted => NotedStep(s)
    case Panic => PanicStep(s)
    case FailLock => FailLockStep(s)
    case FailRest => FailRestStep(s)
    case Leave =>
      if s.writer == Waiting && s.rec.gate.chan == [] && s.hist.queueCloses > 0 then s.(writer := Exited) else s
    case CloseLock(finalise) => CloseLockStep(s, finalise)
    case _ => CloserStep(s, a)
  }

  function Exec(acts: seq<Action>): Sys {
    if acts == [] then START else Step(Exec(acts[..|acts| - 1]), acts[|acts| - 1])
  }

  // ---------------------------------------------------------------------------
  // Teardown: who closed, and how far they got
  // ---------------------------------------------------------------------------

  predicate OpenInv(s: Sys) {
    !s.rec.gate.closed ==>
      && s.cause == StillOpen && s.closer == NoCloser && s.hist.queueCloses == 0
      && s.rec.gate.intake && s.rec.gate.tracks && !s.writer.Stopping?
      && (s.rec.gate.state == Recording || s.rec.gate.state == Paused)
  }

  predicate ClosedInv(s: Sys) {
    s.rec.gate.closed ==>
      && s.cause != StillOpen
      && !s.rec.gate.intake
      && s.rec.gate.state == (if s.cause == Finalised then Finished else Failed)
      && (s.cause != Finalised ==> !s.rec.gate.tracks)
      && (s.cause == Finalised ==> (s.rec.gate.tracks <==> !s.closer.Done?))
      && (s.closer.NoCloser? <==> s.cause == WriteErrors || s.cause == WriterPanic)
      && (s.writer.Stopping? ==> s.closer.NoCloser?)
      && s.hist.queueCloses == (if s.closer == Closing || s.writer.Stopping? then 0 else 1)
  }

  predicate WriterInv(s: Sys) {
    && s.rec.gate.async
    && !s.hist.sentAfterClose
    && (s.writer == Exited ==> s.hist.panicked || (s.hist.queueCloses == 1 && s.rec.gate.chan == []))
    && (s.hist.panicked <==> s.writer == Failing(true) || s.writer == Stopping(true) || (s.writer == Exited && s.hist.panicked))
    && (s.writer == Stopping(false) ==> s.cause == WriteErrors)
    && (s.closer.Releasing? || s.closer.Done? ==> s.closer.timedOut || s.writer == Exited)
  }

  predicate TeardownInv(s: Sys) {
    OpenInv(s) && ClosedInv(s) && WriterInv(s)
  }

  lemma TeardownStep(s: Sys, a: Action)
    requires TeardownInv(s)
    ensures TeardownInv(Step(s, a))
  {
  }

  lemma {:induction false} Teardown(acts: seq<Action>)
    ensures TeardownInv(Exec(acts))
  {
    if acts != [] {
      Teardown(acts[..|acts| - 1]);
      TeardownStep(Exec(acts[..|acts| - 1]), acts[|acts| - 1]);
    }
  }

  lemma ClosedStays(s: Sys, a: Action)
    requires TeardownInv(s) && s.rec.gate.closed
    ensures Step(s, a).rec.gate.closed
    ensures Step(s, a).rec.gate.state == s.rec.gate.state && Step(s, a).cause == s.cause
  {
  }

  /** `finished` and `failed` are absorbing: whatever happens after the recorder
      was closed, it keeps its final state and its cause. */
  lemma {:induction false} FinalStatesAbsorb(acts: seq<Action>, more: seq<Action>)
    requires Exec(acts).rec.gate.closed
    ensures var s, t := Exec(acts), Exec(acts + more);
            && t.rec.gate.closed && t.rec.gate.state == s.rec.gate.state && t.cause == s.cause
            && (s.rec.gate.state == Finished || s.rec.gate.state == Failed)
  {
    Teardown(acts);
    if more == [] {
      assert acts + more == acts;
    } else {
      var init := more[..|more| - 1];
      FinalStatesAbsorb(acts, init);
      ExecLast(acts, more);
      Teardown(acts + init);
      ClosedStays(Exec(acts + init), more[|more| - 1]);
    }
  }

  lemma ExecLast(acts: seq<Action>, more: seq<Action>)
    requires more != []
    ensures Exec(acts + more) == Step(Exec(acts + more[..|more| - 1]), more[|more| - 1])
  {
    ConcatLast(acts, more);
  }

  // ---------------------------------------------------------------------------
  // The queue
  // ---------------------------------------------------------------------------

  function InHand(w: Writer): seq<Item> {
    if w.Holding? then [w.item] else []
  }

  predicate QueueInv(s: Sys) {
    && s.hist.enqueued == s.hist.taken + s.rec.gate.chan
    && s.hist.offered == s.rec.gate.dropped + |s.hist.enqueued|
    && |s.rec.gate.chan| <= QUEUE_SIZE
    && s.hist.handled <= s.hist.taken
    && (!s.hist.panicked ==> s.hist.taken == s.hist.handled + InHand(s.writer))
  }

  lemma HandleKeepsGate(r: Rec, item: Item)
    ensures Handle(r, item).gate == r.gate
  {
  }

  lemma QueueStep(s: Sys, a: Action)
    requires TeardownInv(s) && QueueInv(s)
    ensures QueueInv(Step(s, a))
  {
    if s.writer.Holding? {
      HandleKeepsGate(s.rec, s.writer.item);
    }
  }

  /** In every interleaving: the queue is closed at most once and never sent to
      afterwards, every packet offered while recording is accounted for, and the
      writer has handled a prefix of what was enqueued, in order. */
  lemma {:induction false} QueueSafety(acts: seq<Action>)
    ensures var s := Exec(acts);
            && QueueInv(s)
            && s.hist.queueCloses <= 1 && !s.hist.sentAfterClose
            && s.hist.offered == s.rec.gate.dropped + |s.rec.gate.chan| + |s.hist.taken|
            && s.hist.handled <= s.hist.enqueued
  {
    Teardown(acts);
    if acts != [] {
      var init := acts[..|acts| - 1];
      Teardown(init);
      QueueSafety(init);
      QueueStep(Exec(init), acts[|acts| - 1]);
    }
  }

  /** A recorder that is open and recording takes every packet until 1024 are queued. */
  lemma TakesUpTo1024(r: Rec, item: Item)
    requires r.gate.async && !r.gate.closed && r.gate.state == Recording && r.gate.intake
    ensures |r.gate.chan| < 1024 ==> Offer(r, item).gate == r.gate.(chan := r.gate.chan + [item])
    ensures |r.gate.chan| >= 1024 ==> Offer(r, item).gate == r.gate.(dropped := r.gate.dropped + 1)
  {
  }

  /** After any run, a step drops a packet exactly when one arrives while recording
      with 1024 queued; any other packet that arrives while recording is queued last. */
  lemma DropsIffFull(acts: seq<Action>, a: Action)
    ensures var s, t := Exec(acts), Step(Exec(acts), a);
            var arrives := a.Arrive? && !s.rec.gate.closed && s.rec.gate.state == Recording;
            && (t.rec.gate.dropped != s.rec.gate.dropped <==> arrives && |s.rec.gate.chan| == 1024)
            && (arrives && |s.rec.gate.chan| != 1024 ==> t.rec.gate.chan == s.rec.gate.chan + [a.item])
  {
    QueueSafety(acts);
    Teardown(acts);
    if Exec(acts).writer.Holding? {
      HandleKeepsGate(Exec(acts).rec, Exec(acts).writer.item);
    }
  }

  /** A Finalise that neither timed out nor met a writer panic has every enqueued
      packet handled by the time it may close the tracks, and until then the
      tracks are open. */
  lemma FinaliseFlushes(acts: seq<Action>)
    requires Exec(acts).cause == Finalised
    ensures var s := Exec(acts);
            && (!s.closer.Done? ==> s.rec.gate.tracks)
            && ((s.closer == Releasing(false) || s.closer == Done(false)) && !s.hist.panicked ==>
                s.hist.handled == s.hist.enqueued)
  {
    Teardown(acts);
    QueueSafety(acts);
  }

  // ---------------------------------------------------------------------------
  // The undisturbed writer
  // ---------------------------------------------------------------------------

  function Steps(s: Sys, acts: seq<Action>): Sys
    decreases |acts|
  {
    if acts == [] then s else Steps(Step(s, acts[0]), acts[1..])
  }

  /** Run without interference, the writer's fine steps are one turn of the
      sequential writer: receive the oldest, assemble, write, note, fail at the
      threshold. */
  lemma UndisturbedTurn(s: Sys, disk: nat -> bool)
    requires TeardownInv(s) && s.writer == Waiting && s.rec.gate.chan != []
    ensures var t := Steps(s, Turn(disk(Blocks(s.rec))));
            t.rec == WriterTurn(s.rec, disk) && t.writer == Waiting
    ensures WriterTurn(s.rec, disk).gate.chan == s.rec.gate.chan[1..]
  {
    var ok := disk(Blocks(s.rec));
    var s1 := Step(s, Take);
    TeardownStep(s, Take);
    HandleKeepsGate(s1.rec, s.rec.gate.chan[0]);
    BlocksGrow(s1.rec, s.rec.gate.chan[0]);
    var s2 := Step(s1, Assembled);
    TeardownStep(s1, Assembled);
    SettledTurn(s2, ok);
    assert Steps(s1, [Assembled, Wrote(ok), Noted, FailLock, FailRest])
        == Steps(s2, [Wrote(ok), Noted, FailLock, FailRest]);
  }

  function Turn(ok: bool): seq<Action> {
    [Take, Assembled, Wrote(ok), Noted, FailLock, FailRest]
  }

  lemma SettledTurn(s: Sys, ok: bool)
    requires TeardownInv(s) && (s.writer == Waiting || s.writer == Writing)
    ensures var t := Steps(s, [Wrote(ok), Noted, FailLock, FailRest]);
            && t.rec == (if s.writer == Waiting then s.rec else s.rec.(gate := Settle(s.rec.gate, ok)))
            && t.writer == Waiting
  {
    var s3 := Step(s, Wrote(ok));
    var s4 := Step(s3, Noted);
    var s5 := Step(s4, FailLock);
    var s6 := Step(s5, FailRest);
    assert Steps(s5, [FailRest]) == s6;
    assert Steps(s4, [FailLock, FailRest]) == s6;
    assert Steps(s3, [Noted, FailLock, FailRest]) == s6;
  }

  lemma BlocksGrow(r: Rec, item: Item)
    ensures Blocks(Handle(r, item)) >= Blocks(r)
  {
  }

  // ---------------------------------------------------------------------------
  // Finalise, the quarantine and a panic as runs
  // ---------------------------------------------------------------------------

  lemma {:induction false} StepsConcat(s: Sys, a: seq<Action>, b: seq<Action>)
    ensures Steps(s, a + b) == Steps(Steps(s, a), b)
    decreases |a|
  {
    if a == [] {
      assert a + b == b;
    } else {
      assert (a + b)[1..] == a[1..] + b;
      StepsConcat(Step(s, a[0]), a[1..], b);
    }
  }

  predicate OfTheWriter(a: Action) {
    a == Take || a == Assembled || a.Wrote? || a == Noted || a == FailLock || a == FailRest
  }

  predicate AllOfTheWriter(acts: seq<Action>) {
    forall i :: 0 <= i < |acts| ==> OfTheWriter(acts[i])
  }

  lemma TurnIsTheWriters(ok: bool)
    ensures AllOfTheWriter(Turn(ok))
  {
  }

  /** The same teardown, as far as it has got. */
  predicate SameTeardown(s: Sys, t: Sys) {
    && t.closer == s.closer && t.cause == s.cause && t.rec.gate.closed && s.rec.gate.closed
    && t.hist.queueCloses == s.hist.queueCloses && t.hist.panicked == s.hist.panicked
  }

  lemma {:induction false} WriterLeavesTeardown(s: Sys, acts: seq<Action>)
    requires s.rec.gate.closed && !s.writer.Stopping? && AllOfTheWriter(acts)
    ensures SameTeardown(s, Steps(s, acts))
    decreases |acts|
  {
    if acts != [] {
      if s.writer.Holding? {
        HandleKeepsGate(s.rec, s.writer.item);
      }
      WriterLeavesTeardown(Step(s, acts[0]), acts[1..]);
    }
  }

  /** A turn on a recorder that somebody has closed leaves the teardown alone. */
  lemma ClosedTurn(s: Sys, disk: nat -> bool)
    requires TeardownInv(s) && s.rec.gate.closed && s.writer == Waiting && s.rec.gate.chan != []
    ensures var t := Steps(s, Turn(disk(Blocks(s.rec))));
            t.rec == WriterTurn(s.rec, disk) && t.writer == Waiting && SameTeardown(s, t)
  {
    var ok := disk(Blocks(s.rec));
    UndisturbedTurn(s, disk);
    TurnIsTheWriters(ok);
    WriterLeavesTeardown(s, Turn(ok));
  }

  lemma {:induction false} StepsKeepTeardown(s: Sys, acts: seq<Action>)
    requires TeardownInv(s)
    ensures TeardownInv(Steps(s, acts))
    decreases |acts|
  {
    if acts != [] {
      TeardownStep(s, acts[0]);
      StepsKeepTeardown(Step(s, acts[0]), acts[1..]);
    }
  }

  /** The writer's steps for up to `turns` turns. */
  function Turns(r: Rec, disk: nat -> bool, turns: nat): seq<Action>
    decreases turns
  {
    if r.gate.chan == [] || turns == 0 then []
    else Turn(disk(Blocks(r))) + Turns(WriterTurn(r, disk), disk, turns - 1)
  }

  lemma {:induction false} DrainRun(s: Sys, disk: nat -> bool, turns: nat)
    requires TeardownInv(s) && s.rec.gate.closed && s.writer == Waiting
    ensures var t := Steps(s, Turns(s.rec, disk, turns));
            t.rec == DrainUpTo(s.rec, disk, turns) && t.writer == Waiting && SameTeardown(s, t)
    decreases turns
  {
    if s.rec.gate.chan != [] && turns > 0 {
      var turn := Turn(disk(Blocks(s.rec)));
      ClosedTurn(s, disk);
      StepsKeepTeardown(s, turn);
      DrainRun(Steps(s, turn), disk, turns - 1);
      StepsConcat(s, turn, Turns(WriterTurn(s.rec, disk), disk, turns - 1));
    }
  }

  /** Finalise with the drain timing out after `turns` turns of the writer. */
  function TimedOutFinalise(r: Rec, disk: nat -> bool, turns: nat): seq<Action> {
    [CloseLock(true), CloseQueue] + Turns(r.(gate := StopIntake(r.gate)), disk, turns) + [DrainTimeout, CloseTracks]
  }

  /** Finalise with the writer running to the end of the queue. */
  function CleanFinalise(r: Rec, disk: nat -> bool): seq<Action> {
    [CloseLock(true), CloseQueue] + Turns(r.(gate := StopIntake(r.gate)), disk, |r.gate.chan|)
    + [Leave, DrainDone, CloseTracks]
  }

  lemma ClosingBegins(s: Sys)
    requires TeardownInv(s) && !s.rec.gate.closed && s.writer == Waiting
    ensures var t := Steps(s, [CloseLock(true), CloseQueue]);
            && TeardownInv(t) && t.rec == s.rec.(gate := StopIntake(s.rec.gate)) && t.rec.gate.closed
            && t.writer == Waiting && t.closer == Draining && t.cause == Finalised && t.hist.queueCloses == 1
            && t.hist.panicked == s.hist.panicked
  {
    var s1 := Step(s, CloseLock(true));
    TeardownStep(s, CloseLock(true));
    TeardownStep(s1, CloseQueue);
    assert Steps(s1, [CloseQueue]) == Step(s1, CloseQueue);
  }

  /** These runs of the machine are the sequential Finalise, timed out or not. */
  lemma FinaliseIsARun(s: Sys, disk: nat -> bool, turns: nat)
    requires TeardownInv(s) && !s.rec.gate.closed && s.writer == Waiting
    ensures var t := Steps(s, TimedOutFinalise(s.rec, disk, turns));
            t.rec == Finalise(s.rec, disk, turns) && t.cause == Finalised && t.closer == Done(true)
    ensures var t := Steps(s, CleanFinalise(s.rec, disk));
            && t.rec == Finalise(s.rec, disk, |s.rec.gate.chan|) && t.cause == Finalised && t.closer == Done(false)
            && t.writer == Exited
  {
    ClosingBegins(s);
    TimedOutRun(s, Steps(s, [CloseLock(true), CloseQueue]), disk, turns);
    CleanRun(s, Steps(s, [CloseLock(true), CloseQueue]), disk);
  }

  lemma TimedOutRun(s: Sys, u: Sys, disk: nat -> bool, turns: nat)
    requires !s.rec.gate.closed && u == Steps(s, [CloseLock(true), CloseQueue]) && TeardownInv(u)
    requires u.rec == s.rec.(gate := StopIntake(s.rec.gate)) && u.rec.gate.closed
    requires u.writer == Waiting && u.closer == Draining && u.cause == Finalised
    ensures var t := Steps(s, TimedOutFinalise(s.rec, disk, turns));
            t.rec == Finalise(s.rec, disk, turns) && t.cause == Finalised && t.closer == Done(true)
  {
    var turning, ending := Turns(u.rec, disk, turns), [DrainTimeout, CloseTracks];
    DrainRun(u, disk, turns);
    StepsConcat(s, [CloseLock(true), CloseQueue], turning);
    StepsConcat(s, [CloseLock(true), CloseQueue] + turning, ending);
    var d := Steps(u, turning);
    var d1 := Step(d, DrainTimeout);
    assert Steps(d1, [CloseTracks]) == Step(d1, CloseTracks);
    assert Steps(d, ending) == Step(d1, CloseTracks);
  }

  lemma CleanEnding(d: Sys)
    requires d.writer == Waiting && d.rec.gate.chan == [] && d.closer == Draining && d.hist.queueCloses == 1
    ensures var t := Steps(d, [Leave, DrainDone, CloseTracks]);
            && t.rec == d.rec.(gate := DropTracks(d.rec.gate)) && t.cause == d.cause
            && t.closer == Done(false) && t.writer == Exited
  {
    var d1 := Step(d, Leave);
    var d2 := Step(d1, DrainDone);
    assert Steps(d2, [CloseTracks]) == Step(d2, CloseTracks);
    assert Steps(d1, [DrainDone, CloseTracks]) == Step(d2, CloseTracks);
  }

  lemma CleanRun(s: Sys, u: Sys, disk: nat -> bool)
    requires !s.rec.gate.closed && u == Steps(s, [CloseLock(true), CloseQueue]) && TeardownInv(u)
    requires u.rec == s.rec.(gate := StopIntake(s.rec.gate)) && u.rec.gate.closed
    requires u.writer == Waiting && u.closer == Draining && u.cause == Finalised && u.hist.queueCloses == 1
    ensures var t := Steps(s, CleanFinalise(s.rec, disk));
            && t.rec == Finalise(s.rec, disk, |s.rec.gate.chan|) && t.cause == Finalised && t.closer == Done(false)
            && t.writer == Exited
  {
    var n := |s.rec.gate.chan|;
    var turning, ending := Turns(u.rec, disk, n), [Leave, DrainDone, CloseTracks];
    DrainRun(u, disk, n);
    WholeDrain(u.rec, disk, n);
    StepsConcat(s, [CloseLock(true), CloseQueue], turning);
    StepsConcat(s, [CloseLock(true), CloseQueue] + turning, ending);
    CleanEnding(Steps(u, turning));
  }

  /** The quarantine hook on an open recorder fails it and closes its queue once, and
      a writer that panics with a packet in hand fails it and is gone. */
  lemma FailuresAreRuns(s: Sys)
    requires TeardownInv(s) && !s.rec.gate.closed
    ensures var t := Step(Step(s, CloseLock(false)), CloseQueue);
            && t.rec.gate.state == Failed && t.rec.gate.closed && !t.rec.gate.tracks && !t.rec.gate.intake
            && t.cause == Quarantined && t.hist.queueCloses == 1
    ensures s.writer.Holding? || s.writer == Writing ==>
              var t := Step(Step(Step(s, Panic), FailLock), FailRest);
              && t.rec.gate.state == Failed && t.rec.gate.closed && !t.rec.gate.tracks && !t.rec.gate.intake
              && t.cause == WriterPanic && t.writer == Exited && t.hist.queueCloses == 1 && t.hist.panicked
  {
  }

  /** The history is what happened: each part grows with its own step and no other. */
  lemma HistoryRecords(s: Sys, a: Action)
    requires TeardownInv(s)
    ensures var t := Step(s, a);
            var arrives := a.Arrive? && !s.rec.gate.closed && s.rec.gate.state == Recording;
            && t.hist.offered == s.hist.offered + (if arrives then 1 else 0)
            && t.hist.enqueued == s.hist.enqueued + (if arrives && t.rec.gate.dropped == s.rec.gate.dropped then [a.item] else [])
            && t.hist.taken == s.hist.taken + (if a == Take && t.writer.Holding? && s.writer == Waiting then [t.writer.item] else [])
            && t.hist.handled == s.hist.handled + (if a == Assembled && s.writer.Holding? then [s.writer.item] else [])
            && t.hist.outcomes == s.hist.outcomes + (if a == Noted && s.writer.Noting? then [s.writer.ok] else [])
            && t.hist.queueCloses == s.hist.queueCloses
                 + (if (a == CloseQueue && s.closer == Closing) || (a == FailRest && s.writer.Stopping?) then 1 else 0)
            && (|t.rec.gate.chan| > |s.rec.gate.chan| ==> s.hist.queueCloses == 0)
  {
    if s.writer.Holding? {
      HandleKeepsGate(s.rec, s.writer.item);
    }
  }
}
