// How much of the sender's time a pause takes out of the file.
//
// The reference is what an observer of one track could write down: the clock of
// every packet that arrives, the clock of every block handed over, and both of them
// at each Pause and Resume. It knows nothing of shifts, baselines or 32 bits.
module RecorderPauses {
  import opened Media
  import opened TrackClock
  import opened RecorderCore
  import opened RecorderMachine
  import opened RecorderTimeline

  /** One block: the sender's clock, and the time out of the file before it. */
  datatype Spot = Spot(clock: int, paused: int, lost: int)

  /** `paused` is the time between Pause and Resume, summed over all of them; `lost`
      the time between the last block and the Pause. */
  datatype Notes = Notes(
    begun: bool, seen: int, last: int,
    seenAtPause: int, lastAtPause: int,
    paused: int, lost: int, spots: seq<Spot>)
  {
    function Arrival(t: int): Notes {
      this.(seen := t)
    }

    function Handed(t: int): Notes {
      this.(begun := true, last := t, spots := spots + [Spot(t, paused, lost)])
    }

    function AtPause(): Notes {
      this.(seenAtPause := seen, lastAtPause := last)
    }

    function AtResume(): Notes {
      if begun then this.(paused := paused + (seen - seenAtPause), lost := lost + (seenAtPause - lastAtPause))
      else this
    }

    /** Where block `i` belongs: the time since the first block, less what is out. */
    function Place(i: nat): int
      requires i < |spots|
    {
      spots[i].clock - spots[0].clock - spots[i].paused - spots[i].lost
    }
  }

  datatype Observed = Observed(video: Notes, audio: Notes)
  {
    function Of(kind: Kind): Notes {
      if kind == Video then video else audio
    }
  }

  function NoNotes(lo: nat): Notes {
    Notes(false, lo, lo, lo, lo, 0, 0, [])
  }

  /** What one step shows the observer. */
  function Observe(o: Observed, s: Sys, a: Action): Observed {
    var g := s.rec.gate;
    match a
    case Arrive(item) =>
      if g.closed then o
      else if item.VideoItem? then o.(video := o.video.Arrival(item.clock))
      else o.(audio := o.audio.Arrival(item.clock))
    case DoPause => if g.state == Recording then Observed(o.video.AtPause(), o.audio.AtPause()) else o
    case DoResume => if g.state == Paused then Observed(o.video.AtResume(), o.audio.AtResume()) else o
    case Assembled =>
      if !s.writer.Holding? then o
      else
        var t := Step(s, a);
        Observed(if |t.rec.video.out| > |s.rec.video.out| then o.video.Handed(s.writer.item.clock) else o.video,
                 if |t.rec.audio.out| > |s.rec.audio.out| then o.audio.Handed(s.writer.item.clock) else o.audio)
    case _ => o
  }

  function ObserveRun(acts: seq<Action>, lo: Span): Observed {
    if acts == [] then Observed(NoNotes(lo.video), NoNotes(lo.audio))
    else
      var init := acts[..|acts| - 1];
      Observe(ObserveRun(init, lo), Exec(init), acts[|acts| - 1])
  }

  // ---------------------------------------------------------------------------
  // One track: the ledger cuts out exactly `paused + lost`
  // ---------------------------------------------------------------------------

  predicate NotesInv(n: Notes) {
    && 0 <= n.paused && 0 <= n.lost
    && (n.spots == [] ==> n.paused == n.lost == 0)
    && (forall i :: 0 <= i < |n.spots| ==> 0 <= n.spots[i].lost <= n.lost)
  }

  predicate Placed(n: Notes, at: seq<int>) {
    |at| == |n.spots| && forall i :: 0 <= i < |at| ==> at[i] == n.Place(i)
  }

  /** Ledger and notes of an open track tell the same story; `held` while paused. */
  predicate Linked(l: Ledger, n: Notes, held: bool) {
    && n.begun == l.started == (n.spots != [])
    && n.seen == l.seen
    && (n.begun ==>
          && l.removed == n.paused + n.lost && l.base == n.spots[0].clock
          && (l.wrote ==> n.last == l.mark)
          && (held ==> l.wrote && n.lastAtPause == l.mark && l.mark <= n.seenAtPause <= n.seen))
  }

  lemma HandedKeeps(l: Ledger, n: Notes, at: seq<int>, t: int)
    requires NotesInv(n) && Placed(n, at) && Linked(l, n, false)
    ensures var m, k := n.Handed(t), l.Start(t).Write(t);
            NotesInv(m) && Placed(m, at + [k.Cursor()]) && Linked(k, m, false)
  {
    var m := n.Handed(t);
    assert forall i :: 0 <= i < |n.spots| ==> m.Place(i) == n.Place(i);
  }

  lemma ResumeKeepsLink(l: Ledger, n: Notes, at: seq<int>)
    requires NotesInv(n) && Placed(n, at) && Linked(l, n, true)
    ensures NotesInv(n.AtResume()) && Placed(n.AtResume(), at) && Linked(l.Resume(), n.AtResume(), false)
    ensures n.begun ==> (n.AtResume().lost == 0 <==> n.lost == 0 && n.seenAtPause == n.lastAtPause)
  {
    var m := n.AtResume();
    assert forall i :: 0 <= i < |n.spots| ==> m.Place(i) == n.Place(i);
  }

  // ---------------------------------------------------------------------------
  // Both tracks, over runs
  // ---------------------------------------------------------------------------

  predicate TrackLink(l: Ledger, n: Notes, at: seq<int>, s: Sys) {
    && NotesInv(n) && Placed(n, at)
    && (s.rec.gate.tracks ==> Linked(l, n, s.rec.gate.state == Paused))
  }

  ghost predicate Link(f: Followed, o: Observed) {
    TrackLink(f.video, o.video, f.videoAt, f.sys) && TrackLink(f.audio, o.audio, f.audioAt, f.sys)
  }

  lemma ArriveLinks(f: Followed, o: Observed, lo: Span, item: Item)
    requires Inv(f, lo) && Link(f, o) && Allowed(f, Arrive(item), lo)
    ensures Link(Follow(f, Arrive(item)), Observe(o, f.sys, Arrive(item)))
  {
    var g, p := Follow(f, Arrive(item)), Observe(o, f.sys, Arrive(item));
    assert g.sys.rec.gate.tracks == f.sys.rec.gate.tracks && g.sys.rec.gate.state == f.sys.rec.gate.state;
    assert p.video.spots == o.video.spots && p.audio.spots == o.audio.spots;
    assert Placed(p.video, f.videoAt) by {
      assert forall i :: 0 <= i < |o.video.spots| ==> p.video.Place(i) == o.video.Place(i);
    }
    assert Placed(p.audio, f.audioAt) by {
      assert forall i :: 0 <= i < |o.audio.spots| ==> p.audio.Place(i) == o.audio.Place(i);
    }
  }

  lemma PauseLinks(f: Followed, o: Observed, lo: Span)
    requires Inv(f, lo) && Link(f, o) && Allowed(f, DoPause, lo)
    ensures Link(Follow(f, DoPause), Observe(o, f.sys, DoPause))
  {
    var p := Observe(o, f.sys, DoPause);
    assert Placed(p.video, f.videoAt) by {
      assert forall i :: 0 <= i < |o.video.spots| ==> p.video.Place(i) == o.video.Place(i);
    }
    assert Placed(p.audio, f.audioAt) by {
      assert forall i :: 0 <= i < |o.audio.spots| ==> p.audio.Place(i) == o.audio.Place(i);
    }
  }

  lemma ResumeLinks(f: Followed, o: Observed, lo: Span)
    requires Inv(f, lo) && Link(f, o)
    ensures Link(Follow(f, DoResume), Observe(o, f.sys, DoResume))
  {
    if f.sys.rec.gate.state == Paused {
      ResumeKeepsLink(f.video, o.video, f.videoAt);
      ResumeKeepsLink(f.audio, o.audio, f.audioAt);
    }
  }

  lemma VideoLinks(f: Followed, o: Observed, lo: Span)
    requires Inv(f, lo) && Link(f, o) && f.sys.writer.Holding? && f.sys.writer.item.VideoItem?
    ensures Link(Follow(f, Assembled), Observe(o, f.sys, Assembled))
  {
    HandleKeepsGate(f.sys.rec, f.sys.writer.item);
    assert Pending(f.sys)[0] == f.sys.writer.item;
    if f.sys.rec.gate.tracks {
      HandedKeeps(f.video, o.video, f.videoAt, f.sys.writer.item.clock);
    }
  }

  lemma AudioLinks(f: Followed, o: Observed, lo: Span)
    requires Inv(f, lo) && Link(f, o) && f.sys.writer.Holding? && f.sys.writer.item.AudioItem?
    ensures Link(Follow(f, Assembled), Observe(o, f.sys, Assembled))
  {
    HandleKeepsGate(f.sys.rec, f.sys.writer.item);
    assert Pending(f.sys)[0] == f.sys.writer.item;
    if f.sys.rec.gate.tracks {
      HandedKeeps(f.audio, o.audio, f.audioAt, f.sys.writer.item.clock);
    }
  }

  lemma QuietLinks(f: Followed, o: Observed, a: Action)
    requires Link(f, o) && TeardownInv(f.sys)
    requires !a.Arrive? && !a.DoPause? && !a.DoResume? && !a.Assembled?
    ensures Link(Follow(f, a), Observe(o, f.sys, a))
  {
    var t := Step(f.sys, a);
    assert t.rec.gate.tracks ==> f.sys.rec.gate.tracks && (t.rec.gate.state == Paused ==> f.sys.rec.gate.state == Paused);
  }

  /** At every Resume so far, the last packet seen before the Pause was a block's. */
  predicate WrittenAtPauses(acts: seq<Action>, lo: Span, kind: Kind) {
    acts == [] ||
    (var init := acts[..|acts| - 1];
     var n := ObserveRun(init, lo).Of(kind);
     && WrittenAtPauses(init, lo, kind)
     && (acts[|acts| - 1] == DoResume && Exec(init).rec.gate.state == Paused && n.begun ==>
           n.seenAtPause == n.lastAtPause))
  }

  lemma StepLinks(f: Followed, o: Observed, lo: Span, a: Action)
    requires Inv(f, lo) && Link(f, o) && Allowed(f, a, lo)
    ensures Link(Follow(f, a), Observe(o, f.sys, a))
  {
    match a
    case Arrive(item) => ArriveLinks(f, o, lo, item);
    case DoPause => PauseLinks(f, o, lo);
    case DoResume => ResumeLinks(f, o, lo);
    case Assembled =>
      if f.sys.writer.Holding? {
        if f.sys.writer.item.VideoItem? {
          VideoLinks(f, o, lo);
        } else {
          AudioLinks(f, o, lo);
        }
      }
    case _ => QuietLinks(f, o, a);
  }

  /** Only a Resume loses time, and only if the last packet seen was no block's. */
  lemma LostStep(f: Followed, o: Observed, a: Action, kind: Kind)
    requires TeardownInv(f.sys) && Link(f, o)
    ensures var n := o.Of(kind);
            Observe(o, f.sys, a).Of(kind).lost == 0 <==>
            n.lost == 0 && (a == DoResume && f.sys.rec.gate.state == Paused && n.begun ==> n.seenAtPause == n.lastAtPause)
  {
    if a == DoResume && f.sys.rec.gate.state == Paused {
      ResumeKeepsLink(f.video, o.video, f.videoAt);
      ResumeKeepsLink(f.audio, o.audio, f.audioAt);
    }
  }

  lemma {:induction false} RunLinks(acts: seq<Action>, lo: Span, kind: Kind)
    requires Disciplined(acts, lo)
    ensures Link(FollowRun(acts, lo), ObserveRun(acts, lo))
    ensures ObserveRun(acts, lo).Of(kind).lost == 0 <==> WrittenAtPauses(acts, lo, kind)
  {
    if acts != [] {
      var init, a := acts[..|acts| - 1], acts[|acts| - 1];
      RunKeeps(init, lo);
      RunLinks(init, lo, kind);
      var f, o := FollowRun(init, lo), ObserveRun(init, lo);
      StepLinks(f, o, lo, a);
      LostStep(f, o, a, kind);
    }
  }

  function Out(r: Rec, kind: Kind): seq<Block> {
    if kind == Video then r.video.out else r.audio.out
  }

  function Ms(kind: Kind, position: int): int {
    if kind == Video then VideoMs(position) else AudioMs(position)
  }

  /** Over every disciplined run, on both tracks: a block is stamped with the whole
      milliseconds of the sender's time since the first block, less all the time
      between Pause and Resume, less all the time between a last block and a Pause.
      Stamps never underflow and never decrease. Nothing but paused time is gone
      exactly when, at every Pause, the last packet seen was a block's. */
  lemma PausedTimeIsRemoved(acts: seq<Action>, lo: Span, kind: Kind)
    requires Disciplined(acts, lo)
    ensures var n, out := ObserveRun(acts, lo).Of(kind), Out(Exec(acts).rec, kind);
            && |n.spots| == |out|
            && (forall i :: 0 <= i < |out| ==> out[i].ms == Ms(kind, n.Place(i)))
            && (forall i, j :: 0 <= i <= j < |out| ==> 0 <= n.Place(i) <= n.Place(j))
            && (forall i :: 0 <= i < |out| ==> 0 <= n.spots[i].lost <= n.lost)
            && (n.lost == 0 <==> WrittenAtPauses(acts, lo, kind))
  {
    RunLinks(acts, lo, kind);
    BlocksAreOnTheLedger(acts, lo);
    var f, n := FollowRun(acts, lo), ObserveRun(acts, lo).Of(kind);
    var at := if kind == Video then f.videoAt else f.audioAt;
    assert Placed(n, at);
    assert forall i :: 0 <= i < |at| ==> at[i] == n.Place(i);
  }

  /** Then the file is the sender's time less the paused time, block by block. */
  lemma OnlyPausedTimeIsRemoved(acts: seq<Action>, lo: Span, kind: Kind)
    requires Disciplined(acts, lo) && WrittenAtPauses(acts, lo, kind)
    ensures var n, out := ObserveRun(acts, lo).Of(kind), Out(Exec(acts).rec, kind);
            && |n.spots| == |out|
            && forall i :: 0 <= i < |out| ==>
                 out[i].ms == Ms(kind, n.spots[i].clock - n.spots[0].clock - n.spots[i].paused)
  {
    PausedTimeIsRemoved(acts, lo, kind);
    var n := ObserveRun(acts, lo).Of(kind);
    assert forall i :: 0 <= i < |n.spots| ==> n.spots[i].lost == 0;
  }
}
