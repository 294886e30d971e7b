// The recorder's 32-bit clocks compute the ledger.
//
// A run of RecorderMachine is followed by one ledger per track, kept in unbounded
// integers of the sender's clock. Under the discipline below every block handed to
// a track writer carries the ledger's position, and the positions never decrease.
module RecorderTimeline {
  import opened Media
  import opened TrackClock
  import opened RecorderCore
  import opened RecorderMachine

  /** A machine state beside its ledgers and the positions of the blocks so far. */
  datatype Followed = Followed(
    sys: Sys, video: Ledger, audio: Ledger, videoAt: seq<int>, audioAt: seq<int>)

  /** The ledger of a track whose clock runs within one turn from `lo`. */
  function NewLedger(lo: nat): Ledger {
    Ledger(false, lo, lo, 0, lo, false)
  }

  /** Where each track's clock starts. */
  datatype Span = Span(video: nat, audio: nat)

  function Begun(lo: Span): Followed {
    Followed(START, NewLedger(lo.video), NewLedger(lo.audio), [], [])
  }

  /** Handling this packet completes a frame that passes the keyframe gate. */
  predicate Completes(v: VideoTrack, item: Item) {
    && item.VideoItem? && item.unit.Vp8? && item.marker
    && (v.wroteKey || Assemble(v, item.Ts(), item.unit).keyAhead)
  }

  function FollowVideo(f: Followed, item: Item): Followed {
    if !Completes(f.sys.rec.video, item) then f
    else
      var l := f.video.Start(item.clock).Write(item.clock);
      f.(video := l, videoAt := if f.sys.rec.gate.tracks then f.videoAt + [l.Cursor()] else f.videoAt)
  }

  function FollowAudio(f: Followed, item: Item): Followed {
    var l := f.audio.Start(item.clock).Write(item.clock);
    f.(audio := l, audioAt := if f.sys.rec.gate.tracks then f.audioAt + [l.Cursor()] else f.audioAt)
  }

  /** The ledgers' side of a step. */
  function Ledgers(f: Followed, a: Action): Followed {
    var g := f.sys.rec.gate;
    match a
    case Arrive(item) =>
      if g.closed then f
      else if item.VideoItem? then f.(video := f.video.See(item.clock))
      else f.(audio := f.audio.See(item.clock))
    case DoResume =>
      if g.state != Paused then f else f.(video := f.video.Resume(), audio := f.audio.Resume())
    case Assembled =>
      if !f.sys.writer.Holding? then f
      else if f.sys.writer.item.VideoItem? then FollowVideo(f, f.sys.writer.item)
      else FollowAudio(f, f.sys.writer.item)
    case _ => f
  }

  function Follow(f: Followed, a: Action): Followed {
    Ledgers(f, a).(sys := Step(f.sys, a))
  }

  function FollowRun(acts: seq<Action>, lo: Span): Followed {
    if acts == [] then Begun(lo) else Follow(FollowRun(acts[..|acts| - 1], lo), acts[|acts| - 1])
  }

  /** What the callers and the sender must respect:
      - each track's clock never runs back and stays within one turn from `lo`;
      - nothing is pending in the queue at a Pause, and each track that has begun
        got a block since the last Resume;
      - no Resume falls between the first video packet and the first keyframe. */
  predicate Allowed(f: Followed, a: Action, lo: Span) {
    var g := f.sys.rec.gate;
    match a
    case Arrive(item) =>
      g.closed || if item.VideoItem?
                  then f.video.seen <= item.clock < lo.video + TWO32
                  else f.audio.seen <= item.clock < lo.audio + TWO32
    case DoPause =>
      g.state == Recording ==>
        && Pending(f.sys) == []
        && (f.video.started ==> f.video.wrote) && (f.audio.started ==> f.audio.wrote)
    case DoResume =>
      g.state == Paused && f.sys.rec.video.clock.firstSeen ==> f.sys.rec.video.wroteKey
    case _ => true
  }

  predicate Disciplined(acts: seq<Action>, lo: Span) {
    acts == [] ||
    (var init := acts[..|acts| - 1];
     Disciplined(init, lo) && Allowed(FollowRun(init, lo), acts[|acts| - 1], lo))
  }

  /** Packets enqueued but not yet handled. */
  function Pending(s: Sys): seq<Item> {
    InHand(s.writer) + s.rec.gate.chan
  }

  // ---------------------------------------------------------------------------
  // One track
  // ---------------------------------------------------------------------------

  /** The clock is on its ledger; a track that has not begun has no shift. */
  ghost predicate ClockInv(c: Clock, l: Ledger, lo: nat) {
    && lo <= l.base && lo <= l.mark <= l.seen < lo + TWO32
    && Agrees(c, l) && l.Sane()
    && (!l.started ==> c.shift == 0 && l.mark == lo)
  }

  /** The positions of the blocks handed over: from zero, in order, up to the mark. */
  predicate PositionsInv(l: Ledger, at: seq<int>, open: bool) {
    && (forall i, j :: 0 <= i <= j < |at| ==> at[i] <= at[j])
    && (at != [] ==> l.started && at[0] == 0 && at[|at| - 1] <= l.Cursor())
    && (l.started && at == [] ==> !open)
  }

  /** The write of one block, begun or not: the clock's position is the ledger's. */
  lemma WriteKeepsClock(c: Clock, l: Ledger, lo: nat, t: int)
    requires ClockInv(c, l, lo)
    requires l.mark <= t <= l.seen
    requires !l.started ==> c.firstSeen && c.first == Wrap32(t) && c.lastSeen == Wrap32(l.seen)
    ensures var l' := l.Start(t).Write(t);
            && ClockInv(Stamp(c, Wrap32(t)), l', lo)
            && Position(c, Wrap32(t)) == l'.Cursor()
            && (l.started ==> l.Cursor() <= l'.Cursor()) && (!l.started ==> l'.Cursor() == 0)
  {
    WritePosition(c, l.Start(t).(wrote := false), t);
  }

  lemma WriteKeepsPositions(l: Ledger, at: seq<int>, open: bool, t: int)
    requires PositionsInv(l, at, open)
    requires l.started ==> l.mark <= t
    ensures var l' := l.Start(t).Write(t);
            PositionsInv(l', if open then at + [l'.Cursor()] else at, open)
  {
  }

  lemma ResumeKeepsClock(c: Clock, l: Ledger, lo: nat)
    requires ClockInv(c, l, lo)
    requires l.started ==> c.pausedAt == Wrap32(l.mark)
    requires !l.started ==> !c.firstSeen
    ensures ClockInv(Release(c), l.Resume(), lo)
    ensures l.Resume().Cursor() == l.Cursor()
  {
    if l.started {
      ResumeAgreesIff(c, l);
    }
  }

  // ---------------------------------------------------------------------------
  // Both tracks and the queue
  // ---------------------------------------------------------------------------

  predicate InOrder(items: seq<Item>) {
    forall i, j :: 0 <= i <= j < |items| && items[i].VideoItem? == items[j].VideoItem? ==>
      items[i].clock <= items[j].clock
  }

  /** A pending packet lies between its track's mark and the last one seen. */
  predicate Due(item: Item, f: Followed) {
    if item.VideoItem?
    then f.video.mark <= item.clock <= f.video.seen && f.sys.rec.video.clock.lastSeen == Wrap32(f.video.seen)
    else f.audio.mark <= item.clock <= f.audio.seen && f.sys.rec.audio.clock.lastSeen == Wrap32(f.audio.seen)
  }

  predicate PendingInv(f: Followed) {
    && InOrder(Pending(f.sys))
    && forall i :: 0 <= i < |Pending(f.sys)| ==> Due(Pending(f.sys)[i], f)
  }

  predicate PausedInv(f: Followed) {
    f.sys.rec.gate.state == Paused ==>
      && Pending(f.sys) == []
      && (f.video.started ==> f.sys.rec.video.clock.pausedAt == Wrap32(f.video.mark))
      && (f.audio.started ==> f.sys.rec.audio.clock.pausedAt == Wrap32(f.audio.mark))
  }

  ghost predicate ClocksInv(f: Followed, lo: Span) {
    && ClockInv(f.sys.rec.video.clock, f.video, lo.video)
    && ClockInv(f.sys.rec.audio.clock, f.audio, lo.audio)
    && (f.video.started <==> f.sys.rec.video.wroteKey)
    && (f.audio.started <==> f.sys.rec.audio.clock.firstSeen)
  }

  /** Each block carries its ledger position in milliseconds. */
  predicate Timed(r: Rec, videoAt: seq<int>, audioAt: seq<int>) {
    && |videoAt| == |r.video.out| && |audioAt| == |r.audio.out|
    && (forall i :: 0 <= i < |videoAt| ==> r.video.out[i].ms == VideoMs(videoAt[i]))
    && (forall i :: 0 <= i < |audioAt| ==> r.audio.out[i].ms == AudioMs(audioAt[i]))
  }

  ghost predicate FilesInv(f: Followed) {
    && PositionsInv(f.video, f.videoAt, f.sys.rec.gate.tracks)
    && PositionsInv(f.audio, f.audioAt, f.sys.rec.gate.tracks)
    && Timed(f.sys.rec, f.videoAt, f.audioAt)
  }

  ghost predicate Inv(f: Followed, lo: Span) {
    TeardownInv(f.sys) && ClocksInv(f, lo) && FilesInv(f) && PendingInv(f) && PausedInv(f)
  }

  lemma ArriveKeepsClocks(f: Followed, lo: Span, item: Item)
    requires Inv(f, lo) && Allowed(f, Arrive(item), lo)
    ensures ClocksInv(Follow(f, Arrive(item)), lo)
  {
  }

  lemma SeeKeepsPositions(l: Ledger, at: seq<int>, open: bool, t: int)
    requires PositionsInv(l, at, open)
    ensures PositionsInv(l.See(t), at, open)
  {
  }

  lemma ArriveKeepsFiles(f: Followed, lo: Span, item: Item)
    requires Inv(f, lo) && Allowed(f, Arrive(item), lo)
    ensures FilesInv(Follow(f, Arrive(item)))
  {
    SeeKeepsPositions(f.video, f.videoAt, f.sys.rec.gate.tracks, item.clock);
    SeeKeepsPositions(f.audio, f.audioAt, f.sys.rec.gate.tracks, item.clock);
    var r := Step(f.sys, Arrive(item)).rec;
    assert r.video.out == f.sys.rec.video.out && r.audio.out == f.sys.rec.audio.out;
    assert r.gate.tracks == f.sys.rec.gate.tracks;
  }

  lemma ArriveKeepsPaused(f: Followed, lo: Span, item: Item)
    requires Inv(f, lo) && Allowed(f, Arrive(item), lo)
    ensures PausedInv(Follow(f, Arrive(item)))
  {
  }

  /** Seeing a later packet keeps what was due due. */
  lemma StillDue(f: Followed, lo: Span, item: Item, other: Item)
    requires ClocksInv(f, lo) && Allowed(f, Arrive(item), lo) && Due(other, f)
    ensures Due(other, Follow(f, Arrive(item)))
    ensures !f.sys.rec.gate.closed && item.VideoItem? == other.VideoItem? ==> other.clock <= item.clock
  {
  }

  /** What was pending stays due, and a packet that was enqueued goes last. */
  lemma PendingGrows(f: Followed, g: Followed, item: Item)
    requires InOrder(Pending(f.sys))
    requires Pending(g.sys) == Pending(f.sys) || Pending(g.sys) == Pending(f.sys) + [item]
    requires Pending(g.sys) != Pending(f.sys) ==> Due(item, g)
    requires forall i :: 0 <= i < |Pending(f.sys)| ==>
               && Due(Pending(f.sys)[i], g)
               && (Pending(g.sys) != Pending(f.sys) && Pending(f.sys)[i].VideoItem? == item.VideoItem? ==>
                   Pending(f.sys)[i].clock <= item.clock)
    ensures PendingInv(g)
  {
  }

  lemma ArriveKeepsPending(f: Followed, lo: Span, item: Item)
    requires Inv(f, lo) && Allowed(f, Arrive(item), lo)
    ensures PendingInv(Follow(f, Arrive(item)))
  {
    var g := Follow(f, Arrive(item));
    var p, q := Pending(f.sys), Pending(g.sys);
    assert q == p || (q == p + [item] && !f.sys.rec.gate.closed && Due(item, g));
    forall i | 0 <= i < |p|
      ensures Due(p[i], g)
      ensures !f.sys.rec.gate.closed && item.VideoItem? == p[i].VideoItem? ==> p[i].clock <= item.clock
    {
      StillDue(f, lo, item, p[i]);
    }
    PendingGrows(f, g, item);
  }

  lemma ArriveKeeps(f: Followed, lo: Span, item: Item)
    requires Inv(f, lo) && Allowed(f, Arrive(item), lo)
    ensures Inv(Follow(f, Arrive(item)), lo)
  {
    TeardownStep(f.sys, Arrive(item));
    ArriveKeepsClocks(f, lo, item);
    ArriveKeepsFiles(f, lo, item);
    ArriveKeepsPaused(f, lo, item);
    ArriveKeepsPending(f, lo, item);
  }

  lemma PauseKeeps(f: Followed, lo: Span)
    requires Inv(f, lo) && Allowed(f, DoPause, lo)
    ensures Inv(Follow(f, DoPause), lo)
  {
    TeardownStep(f.sys, DoPause);
  }

  lemma ResumeKeeps(f: Followed, lo: Span)
    requires Inv(f, lo) && Allowed(f, DoResume, lo)
    ensures Inv(Follow(f, DoResume), lo)
  {
    TeardownStep(f.sys, DoResume);
    if f.sys.rec.gate.state == Paused {
      ResumeKeepsClock(f.sys.rec.video.clock, f.video, lo.video);
      ResumeKeepsClock(f.sys.rec.audio.clock, f.audio, lo.audio);
    }
  }

  lemma TakeKeeps(f: Followed, lo: Span)
    requires Inv(f, lo)
    ensures Inv(Follow(f, Take), lo)
  {
    TeardownStep(f.sys, Take);
    assert Pending(Step(f.sys, Take)) == Pending(f.sys);
  }

  /** The head of the pending packets is gone; the rest is due at the new mark. */
  lemma TailStillDue(f: Followed, g: Followed)
    requires f.sys.writer.Holding? && PendingInv(f)
    requires Pending(g.sys) == f.sys.rec.gate.chan
    requires g.sys.rec.video.clock.lastSeen == f.sys.rec.video.clock.lastSeen
    requires g.sys.rec.audio.clock.lastSeen == f.sys.rec.audio.clock.lastSeen
    requires g.video.seen == f.video.seen && g.audio.seen == f.audio.seen
    requires g.video.mark == f.video.mark || (f.sys.writer.item.VideoItem? && g.video.mark == f.sys.writer.item.clock)
    requires g.audio.mark == f.audio.mark || (f.sys.writer.item.AudioItem? && g.audio.mark == f.sys.writer.item.clock)
    ensures PendingInv(g)
  {
    var p, q := Pending(f.sys), Pending(g.sys);
    assert p == [f.sys.writer.item] + q;
    forall i | 0 <= i < |q|
      ensures Due(q[i], g)
    {
      assert q[i] == p[i + 1] && Due(p[i + 1], f);
      assert p[0] == f.sys.writer.item;
    }
    forall i, j | 0 <= i <= j < |q| && q[i].VideoItem? == q[j].VideoItem?
      ensures q[i].clock <= q[j].clock
    {
      assert q[i] == p[i + 1] && q[j] == p[j + 1];
    }
  }

  lemma AudioKeeps(f: Followed, lo: Span)
    requires Inv(f, lo) && f.sys.writer.Holding? && f.sys.writer.item.AudioItem?
    ensures var g := Follow(f, Assembled); ClocksInv(g, lo) && FilesInv(g) && PendingInv(g) && PausedInv(g)
  {
    var item := f.sys.writer.item;
    var t := item.clock;
    assert Pending(f.sys)[0] == item;
    assert Due(item, f);
    var c := Begin(f.sys.rec.audio.clock, Wrap32(t));
    WriteKeepsClock(c, f.audio, lo.audio, t);
    WriteKeepsPositions(f.audio, f.audioAt, f.sys.rec.gate.tracks, t);
    TailStillDue(f, Follow(f, Assembled));
  }

  lemma FrameKeeps(f: Followed, lo: Span)
    requires Inv(f, lo) && f.sys.writer.Holding? && Completes(f.sys.rec.video, f.sys.writer.item)
    ensures var g := Follow(f, Assembled); ClocksInv(g, lo) && FilesInv(g) && PendingInv(g) && PausedInv(g)
  {
    var item := f.sys.writer.item;
    var t := item.clock;
    assert Pending(f.sys)[0] == item;
    assert Due(item, f);
    var v := Assemble(f.sys.rec.video, Wrap32(t), item.unit);
    var c := if v.wroteKey then v.clock else Rebase(v.clock, Wrap32(t));
    WriteKeepsClock(c, f.video, lo.video, t);
    WriteKeepsPositions(f.video, f.videoAt, f.sys.rec.gate.tracks, t);
    TailStillDue(f, Follow(f, Assembled));
  }

  /** A video packet that completes nothing only touches the assembly. */
  lemma FragmentKeeps(f: Followed, lo: Span)
    requires Inv(f, lo) && f.sys.writer.Holding? && f.sys.writer.item.VideoItem?
    requires !Completes(f.sys.rec.video, f.sys.writer.item)
    ensures var g := Follow(f, Assembled); ClocksInv(g, lo) && FilesInv(g) && PendingInv(g) && PausedInv(g)
  {
    TailStillDue(f, Follow(f, Assembled));
  }

  lemma AssembledKeeps(f: Followed, lo: Span)
    requires Inv(f, lo)
    ensures Inv(Follow(f, Assembled), lo)
  {
    TeardownStep(f.sys, Assembled);
    if f.sys.writer.Holding? {
      if f.sys.writer.item.AudioItem? {
        AudioKeeps(f, lo);
      } else if Completes(f.sys.rec.video, f.sys.writer.item) {
        FrameKeeps(f, lo);
      } else {
        FragmentKeeps(f, lo);
      }
    }
  }

  /** A step that leaves the tracks and the pending packets alone, may close the
      track writers and never pauses. */
  lemma QuietKeeps(f: Followed, g: Followed, lo: Span)
    requires Inv(f, lo) && TeardownInv(g.sys)
    requires g == f.(sys := g.sys)
    requires g.sys.rec.video == f.sys.rec.video && g.sys.rec.audio == f.sys.rec.audio
    requires Pending(g.sys) == Pending(f.sys)
    requires g.sys.rec.gate.tracks ==> f.sys.rec.gate.tracks
    requires g.sys.rec.gate.state == Paused ==> f.sys.rec.gate.state == Paused
    ensures Inv(g, lo)
  {
    assert forall i :: 0 <= i < |Pending(f.sys)| ==> Due(Pending(f.sys)[i], f);
  }

  lemma PanicKeeps(f: Followed, lo: Span)
    requires Inv(f, lo)
    ensures Inv(Follow(f, Panic), lo)
  {
    TeardownStep(f.sys, Panic);
    if f.sys.writer.Holding? {
      TailStillDue(f, Follow(f, Panic));
    }
  }

  lemma OthersKeep(f: Followed, lo: Span, a: Action)
    requires Inv(f, lo)
    requires !a.Arrive? && !a.DoPause? && !a.DoResume? && !a.Take? && !a.Assembled? && !a.Panic?
    ensures Inv(Follow(f, a), lo)
  {
    TeardownStep(f.sys, a);
    QuietKeeps(f, Follow(f, a), lo);
  }

  lemma StepKeeps(f: Followed, lo: Span, a: Action)
    requires Inv(f, lo) && Allowed(f, a, lo)
    ensures Inv(Follow(f, a), lo)
  {
    match a
    case Arrive(item) => ArriveKeeps(f, lo, item);
    case DoPause => PauseKeeps(f, lo);
    case DoResume => ResumeKeeps(f, lo);
    case Take => TakeKeeps(f, lo);
    case Assembled => AssembledKeeps(f, lo);
    case Panic => PanicKeeps(f, lo);
    case _ => OthersKeep(f, lo, a);
  }

  lemma {:induction false} RunKeeps(acts: seq<Action>, lo: Span)
    requires Disciplined(acts, lo)
    ensures Inv(FollowRun(acts, lo), lo)
    ensures FollowRun(acts, lo).sys == Exec(acts)
  {
    if acts != [] {
      var init := acts[..|acts| - 1];
      RunKeeps(init, lo);
      StepKeeps(FollowRun(init, lo), lo, acts[|acts| - 1]);
    }
  }

  /** Over every disciplined run, each block handed to a track writer is stamped
      with the whole milliseconds of its ledger position; the positions start at
      zero, never underflow and never decrease, wherever the 32-bit clock wraps. */
  lemma BlocksAreOnTheLedger(acts: seq<Action>, lo: Span)
    requires Disciplined(acts, lo)
    ensures var f := FollowRun(acts, lo);
            && f.sys == Exec(acts)
            && Timed(Exec(acts).rec, f.videoAt, f.audioAt)
            && (forall i, j :: 0 <= i <= j < |f.videoAt| ==> 0 <= f.videoAt[i] <= f.videoAt[j])
            && (forall i, j :: 0 <= i <= j < |f.audioAt| ==> 0 <= f.audioAt[i] <= f.audioAt[j])
            && (f.videoAt != [] ==> f.videoAt[0] == 0) && (f.audioAt != [] ==> f.audioAt[0] == 0)
  {
    RunKeeps(acts, lo);
  }
}
