// The file starts on a real keyframe, whichever packets were lost.
module RecorderKeyframe {
  import opened Media
  import opened TrackClock
  import opened RecorderCore
  import opened RecorderFrames
  import opened RecorderMachine

  /** A packet that starts a frame carries at least one byte of it. */
  predicate Framed(item: Item) {
    item.StartsFrame() ==> item.unit.body != []
  }

  predicate FramedRun(acts: seq<Action>) {
    forall i :: 0 <= i < |acts| && acts[i].Arrive? ==> Framed(acts[i].item)
  }

  predicate PendingFramed(s: Sys) {
    && (forall i :: 0 <= i < |s.rec.gate.chan| ==> Framed(s.rec.gate.chan[i]))
    && (s.writer.Holding? ==> Framed(s.writer.item))
  }

  predicate KeyInv(v: VideoTrack, open: bool) {
    && (!v.wroteKey ==> v.out == [] && (v.keyAhead ==> KeyByte(v.buf)))
    && (v.wroteKey && v.out == [] ==> !open)
    && (v.out != [] ==> v.out[0].key && KeyByte(v.out[0].frame))
  }

  lemma HandleKeepsKeyInv(v: VideoTrack, open: bool, item: Item)
    requires item.VideoItem? && Framed(item)
    requires KeyInv(v, open)
    ensures KeyInv(HandleVideo(v, open, item), open)
  {
    if item.unit.Vp8? {
      var v1 := Assemble(v, item.Ts(), item.unit);
      assert KeyInv(v1, open);
    }
  }

  ghost predicate StartInv(s: Sys) {
    PendingFramed(s) && KeyInv(s.rec.video, s.rec.gate.tracks)
  }

  lemma StartStep(s: Sys, a: Action)
    requires TeardownInv(s) && StartInv(s)
    requires a.Arrive? ==> Framed(a.item)
    ensures StartInv(Step(s, a))
  {
    if a.Assembled? && s.writer.Holding? && s.writer.item.VideoItem? {
      HandleKeepsKeyInv(s.rec.video, s.rec.gate.tracks, s.writer.item);
    }
  }

  /** Over every run whose frame starts are not empty, with any other packets
      lost: the first video block handed to the track writer is flagged key and
      its first byte has the P bit of section 4.3 of RFC 7741 clear. */
  lemma {:induction false} FileStartsOnKeyframe(acts: seq<Action>)
    requires FramedRun(acts)
    ensures StartInv(Exec(acts))
    ensures var out := Exec(acts).rec.video.out;
            out != [] ==> out[0].key && out[0].frame != [] && out[0].frame[0] % 2 == 0
  {
    if acts != [] {
      var init := acts[..|acts| - 1];
      assert forall i :: 0 <= i < |init| ==> init[i] == acts[i];
      FileStartsOnKeyframe(init);
      Teardown(init);
      StartStep(Exec(init), acts[|acts| - 1]);
    }
  }

  // ---------------------------------------------------------------------------
  // Exactly which frame start loses it
  // ---------------------------------------------------------------------------

  /** The first block, if there is one, is a keyframe and flagged so. */
  predicate GoodStart(v: VideoTrack) {
    v.out != [] ==> v.out[0].key && KeyByte(v.out[0].frame)
  }

  predicate AllFramed(items: seq<Item>) {
    forall i :: 0 <= i < |items| ==> items[i].VideoItem? && Framed(items[i])
  }

  /** Whatever framed packets come next, the file starts on a keyframe. */
  ghost predicate Guaranteed(v: VideoTrack, open: bool) {
    forall rest: seq<Item> :: AllFramed(rest) ==> GoodStart(HandleAll(v, open, rest))
  }

  lemma {:induction false} KeyInvGuarantees(v: VideoTrack, open: bool, rest: seq<Item>)
    requires KeyInv(v, open) && AllFramed(rest)
    ensures KeyInv(HandleAll(v, open, rest), open) && GoodStart(HandleAll(v, open, rest))
    decreases |rest|
  {
    if rest != [] {
      var n := |rest| - 1;
      KeyInvGuarantees(v, open, rest[..n]);
      HandleKeepsKeyInv(HandleAll(v, open, rest[..n]), open, rest[n]);
    }
  }

  lemma {:induction false} ClosedWritesNothing(v: VideoTrack, rest: seq<Item>)
    requires AllFramed(rest)
    ensures HandleAll(v, false, rest).out == v.out
    decreases |rest|
  {
    if rest != [] {
      ClosedWritesNothing(v, rest[..|rest| - 1]);
    }
  }

  /** Of all frame starts, only an empty one arriving after a keyframe start, with
      no block written yet, breaks the invariant, whether or not it carries the
      marker; with the tracks closed a marker hides it. */
  lemma FrameStartKeepsKeyInvIff(v: VideoTrack, open: bool, item: Item)
    requires item.StartsFrame()
    requires KeyInv(v, open)
    ensures KeyInv(HandleVideo(v, open, item), open)
            <==> item.unit.body != [] || !v.keyAhead || v.wroteKey || (item.marker && !open)
  {
  }

  /** The same of the blocks written: after a frame start, every file that can still
      follow starts on a keyframe exactly when the start is not empty, or no keyframe
      start is pending, or a block is already written, or none ever will be. */
  lemma FrameStartIsSafeIff(v: VideoTrack, open: bool, item: Item)
    requires item.StartsFrame()
    requires KeyInv(v, open)
    ensures Guaranteed(HandleVideo(v, open, item), open)
            <==> item.unit.body != [] || !v.keyAhead || v.wroteKey || !open
  {
    var w := HandleVideo(v, open, item);
    FrameStartKeepsKeyInvIff(v, open, item);
    if item.unit.body != [] || !v.keyAhead || v.wroteKey || !open {
      forall rest: seq<Item> | AllFramed(rest)
        ensures GoodStart(HandleAll(w, open, rest))
      {
        if open {
          KeyInvGuarantees(w, open, rest);
        } else {
          ClosedWritesNothing(w, rest);
        }
      }
    } else {
      BadStart(v, item);
    }
  }

  /** An inter frame, or nothing at all, as the first block. */
  lemma BadStart(v: VideoTrack, item: Item)
    requires item.StartsFrame() && item.unit.body == [] && KeyInv(v, true) && v.keyAhead && !v.wroteKey
    ensures !Guaranteed(HandleVideo(v, true, item), true)
  {
    var w := HandleVideo(v, true, item);
    if item.marker {
      assert AllFramed([]) && HandleAll(w, true, []) == w;
    } else {
      var next := VideoItem(0, true, Vp8(false, 0, [1]));
      assert [next][..0] == [];
      assert AllFramed([next]) && HandleAll(w, true, [next]) == HandleVideo(w, true, next);
      assert w.buf + [1] == [1];
    }
  }

  // ---------------------------------------------------------------------------
  // It starts at time zero
  // ---------------------------------------------------------------------------

  /** The first block is at time zero exactly when the accumulated shift is zero or
      within the last millisecond of the 32-bit clock. */
  lemma FirstBlockTime(v: VideoTrack, ts: u32)
    requires !v.wroteKey && v.keyAhead && v.out == []
    ensures var out := Emit(v, true, ts).out;
            && |out| == 1
            && out[0].ms == VideoMs(Wrap32(0 - v.clock.shift))
            && (out[0].ms == 0 <==> v.clock.shift == 0 || v.clock.shift > TWO32 - 90)
  {
  }

  /** No Resume takes effect between the first video packet and the first block. */
  predicate NoEarlyResume(acts: seq<Action>) {
    acts == [] ||
    (var init := acts[..|acts| - 1];
     var r := Exec(init).rec;
     && NoEarlyResume(init)
     && (acts[|acts| - 1] == DoResume && r.gate.state == Paused ==> r.video.out != [] || !r.video.clock.firstSeen))
  }

  predicate ZeroInv(v: VideoTrack, open: bool) {
    if v.out == [] then (open ==> v.clock.shift == 0 && !v.wroteKey) else v.out[0].ms == 0
  }

  lemma HandleKeepsZeroInv(v: VideoTrack, open: bool, item: Item)
    requires item.VideoItem? && ZeroInv(v, open)
    ensures ZeroInv(HandleVideo(v, open, item), open)
  {
    if item.unit.Vp8? && open && v.out == [] {
      var w := Assemble(v, item.Ts(), item.unit);
      if item.marker && w.keyAhead {
        FirstBlockTime(w, item.Ts());
      }
    }
  }

  lemma ZeroStep(s: Sys, a: Action)
    requires TeardownInv(s) && ZeroInv(s.rec.video, s.rec.gate.tracks)
    requires a == DoResume && s.rec.gate.state == Paused ==> s.rec.video.out != [] || !s.rec.video.clock.firstSeen
    ensures var t := Step(s, a); ZeroInv(t.rec.video, t.rec.gate.tracks)
  {
    if a.Assembled? && s.writer.Holding? {
      HandleKeepsGate(s.rec, s.writer.item);
      if s.writer.item.VideoItem? {
        HandleKeepsZeroInv(s.rec.video, s.rec.gate.tracks, s.writer.item);
      }
    }
  }

  /** Over every such run, whatever was lost or paused, the file starts at zero. */
  lemma {:induction false} FileStartsAtZero(acts: seq<Action>)
    requires NoEarlyResume(acts)
    ensures var s := Exec(acts);
            && ZeroInv(s.rec.video, s.rec.gate.tracks)
            && (s.rec.video.out != [] ==> s.rec.video.out[0].ms == 0)
  {
    if acts != [] {
      var init := acts[..|acts| - 1];
      FileStartsAtZero(init);
      Teardown(init);
      ZeroStep(Exec(init), acts[|acts| - 1]);
    }
  }
}
