// Runs from a fresh recorder that end in a wrong file, one for each thing the
// discipline of RecorderTimeline, the settled pauses of RecorderPauses or the
// non-empty frame starts of RecorderKeyframe rule out.
module RecorderRuns {
  import opened Media
  import opened TrackClock
  import opened RecorderCore
  import opened RecorderMachine

  /** A packet arrives and the writer deals with it at once. */
  function Delivery(item: Item): seq<Action> {
    [Arrive(item), Take, Assembled, Wrote(true), Noted]
  }

  predicate Idle(s: Sys) {
    TeardownInv(s) && !s.rec.gate.closed && s.rec.gate.state == Recording && s.writer == Waiting && s.rec.gate.chan == []
  }

  /** The tracks after a packet went straight through. */
  function Through(r: Rec, item: Item): Rec {
    Handle(Look(r, item), item)
  }

  lemma {:induction false} ExecSteps(acts: seq<Action>, more: seq<Action>)
    ensures Exec(acts + more) == Steps(Exec(acts), more)
    decreases |more|
  {
    if more == [] {
      assert acts + more == acts;
    } else {
      assert (acts + [more[0]])[..|acts|] == acts;
      assert acts + more == (acts + [more[0]]) + more[1..];
      ExecSteps(acts + [more[0]], more[1..]);
    }
  }

  lemma StepsFour(s: Sys, a: Action, b: Action, c: Action, d: Action)
    ensures Steps(s, [a, b, c, d]) == Step(Step(Step(Step(s, a), b), c), d)
  {
    var s1 := Step(s, a);
    var s2 := Step(s1, b);
    var s3 := Step(s2, c);
    assert Steps(s3, [d]) == Step(s3, d);
    assert Steps(s2, [c, d]) == Step(s3, d);
    assert Steps(s1, [b, c, d]) == Step(s3, d);
  }

  const TURN: seq<Action> := [Take, Assembled, Wrote(true), Noted]

  /** Recording, with one packet queued. */
  predicate Queued(s: Sys, item: Item) {
    && TeardownInv(s) && !s.rec.gate.closed && s.rec.gate.state == Recording
    && s.writer == Waiting && s.rec.gate.chan == [item]
  }

  lemma Turned(s: Sys, item: Item)
    requires Queued(s, item)
    ensures var t := Steps(s, TURN);
            Idle(t) && t.rec.video == Handle(s.rec, item).video && t.rec.audio == Handle(s.rec, item).audio
  {
    StepsFour(s, Take, Assembled, Wrote(true), Noted);
    var s2 := Step(s, Take);
    TeardownStep(s, Take);
    assert s2.writer == Holding(item) && s2.rec.gate.chan == [];
    var s3 := Step(s2, Assembled);
    TeardownStep(s2, Assembled);
    HandleKeepsGate(s2.rec, item);
    var s4 := Step(s3, Wrote(true));
    TeardownStep(s3, Wrote(true));
    TeardownStep(s4, Noted);
  }

  lemma Delivered(s: Sys, item: Item)
    requires Idle(s)
    ensures var t := Steps(s, Delivery(item));
            Idle(t) && t.rec.video == Through(s.rec, item).video && t.rec.audio == Through(s.rec, item).audio
  {
    var s1 := Step(s, Arrive(item));
    TeardownStep(s, Arrive(item));
    assert s1.rec.gate.chan == [item];
    assert Delivery(item)[1..] == TURN;
    Turned(s1, item);
  }

  /** What is idle, and how its tracks stand. */
  predicate At(s: Sys, video: VideoTrack, audio: AudioTrack) {
    Idle(s) && s.rec.video == video && s.rec.audio == audio
  }

  lemma FirstDelivery(item: Item)
    ensures var r := NewRec(true);
            At(Exec(Delivery(item)), Through(r, item).video, Through(r, item).audio)
  {
    ExecSteps([], Delivery(item));
    assert [] + Delivery(item) == Delivery(item);
    Delivered(START, item);
  }

  lemma NextDelivery(acts: seq<Action>, item: Item)
    requires Idle(Exec(acts))
    ensures var r := Exec(acts).rec;
            At(Exec(acts + Delivery(item)), Through(r, item).video, Through(r, item).audio)
  {
    ExecSteps(acts, Delivery(item));
    Delivered(Exec(acts), item);
  }

  /** Pause and resume, with `items` seen in between. */
  function Break(items: seq<Item>): seq<Action> {
    [DoPause] + seq(|items|, i requires 0 <= i < |items| => Arrive(items[i])) + [DoResume]
  }

  lemma NextBreak(acts: seq<Action>, item: Option<Item>)
    requires Idle(Exec(acts))
    ensures var r := RecorderCore.Pause(Exec(acts).rec);
            var q := RecorderCore.Resume(if item.Some? then Look(r, item.value) else r);
            At(Exec(acts + Break(if item.Some? then [item.value] else [])), q.video, q.audio)
  {
    var s := Exec(acts);
    var s1 := Step(s, DoPause);
    TeardownStep(s, DoPause);
    if item.Some? {
      var a := Arrive(item.value);
      var s2 := Step(s1, a);
      TeardownStep(s1, a);
      TeardownStep(s2, DoResume);
      assert Break([item.value]) == [DoPause, a, DoResume];
      ExecSteps(acts, [DoPause, a, DoResume]);
      assert Steps(s2, [DoResume]) == Step(s2, DoResume);
      assert Steps(s1, [a, DoResume]) == Step(s2, DoResume);
    } else {
      TeardownStep(s1, DoResume);
      assert Break([]) == [DoPause, DoResume];
      ExecSteps(acts, [DoPause, DoResume]);
      assert Steps(s1, [DoResume]) == Step(s1, DoResume);
    }
  }

  // ---------------------------------------------------------------------------
  // Pauses
  // ---------------------------------------------------------------------------

  /** A frame is half seen when the recorder is paused and resumed with nothing in
      between: its block, 100 ms after the first, is stamped with the first's time. */
  lemma PausedMidFrame(key: seq<byte>, half: seq<byte>, rest: seq<byte>)
    requires KeyByte(key)
    ensures var acts := Delivery(VideoItem(0, true, Vp8(true, 0, key)))
                        + Delivery(VideoItem(9000, false, Vp8(true, 0, half)))
                        + Break([])
                        + Delivery(VideoItem(9000, true, Vp8(false, 0, rest)));
            var out := Exec(acts).rec.video.out;
            |out| == 2 && out[0].ms == 0 && out[1].ms == 0 && out[1].frame == half + rest && VideoMs(9000) == 100
  {
    var i1, i2 := VideoItem(0, true, Vp8(true, 0, key)), VideoItem(9000, false, Vp8(true, 0, half));
    var i3 := VideoItem(9000, true, Vp8(false, 0, rest));
    FirstDelivery(i1);
    NextDelivery(Delivery(i1), i2);
    var before := Exec(Delivery(i1) + Delivery(i2)).rec.video;
    assert before.clock == Clock(true, 0, 0, 0, 9000, 0) && before.wroteKey && before.buf == half;
    NextBreak(Delivery(i1) + Delivery(i2), None);
    NextDelivery(Delivery(i1) + Delivery(i2) + Break([]), i3);
  }

  /** One audio packet handled: where its block goes. */
  lemma AudioWritten(a: AudioTrack, t: nat, payload: seq<byte>, at: int)
    requires a.clock.firstSeen && t < TWO32 && at == Wrap32(t - a.clock.first - a.clock.shift)
    ensures HandleAudio(a, true, AudioItem(t, payload))
         == AudioTrack(a.clock.(last := t), a.out + [Block(true, AudioMs(at), payload)])
  {
    WrapAdd(t - a.clock.first, 0 - a.clock.shift);
  }

  lemma AudioThrough(r: Rec, t: nat, payload: seq<byte>, at: int)
    requires r.audio.clock.firstSeen && r.gate.tracks && t < TWO32
    requires at == Wrap32(t - r.audio.clock.first - r.audio.clock.shift)
    ensures Through(r, AudioItem(t, payload)).audio
         == AudioTrack(r.audio.clock.(last := t, lastSeen := t), r.audio.out + [Block(true, AudioMs(at), payload)])
  {
    AudioWritten(Look(r, AudioItem(t, payload)).audio, t, payload, at);
  }

  lemma BreakShift(r: Rec, t: nat, payload: seq<byte>)
    requires r.gate.state == Recording && r.audio.clock.firstSeen
    requires r.audio.clock.last <= t < TWO32 && r.audio.clock.shift + t - r.audio.clock.last < TWO32
    ensures var a := RecorderCore.Resume(Look(RecorderCore.Pause(r), AudioItem(t, payload))).audio;
            var c := r.audio.clock;
            && a.out == r.audio.out
            && a.clock == Clock(true, c.first, c.last, c.shift + t - c.last, t, c.last)
  {
  }

  lemma BothBreaks(p: seq<byte>)
    ensures var s := Exec(Delivery(AudioItem(0, p)) + Break([AudioItem(48000, p)]) + Break([]));
            && Idle(s) && |s.rec.audio.out| == 1 && s.rec.audio.out[0].ms == 0
            && s.rec.audio.clock == Clock(true, 0, 0, 96000, 48000, 0)
  {
    var i1, i2 := AudioItem(0, p), AudioItem(48000, p);
    FirstDelivery(i1);
    var s1 := Exec(Delivery(i1));
    assert s1.rec.audio == AudioTrack(Clock(true, 0, 0, 0, 0, 0), [Block(true, 0, p)]);
    NextBreak(Delivery(i1), Some(i2));
    BreakShift(s1.rec, 48000, p);
    var s2 := Exec(Delivery(i1) + Break([i2]));
    assert s2.rec.audio == AudioTrack(Clock(true, 0, 0, 48000, 48000, 0), [Block(true, 0, p)]);
    NextBreak(Delivery(i1) + Break([i2]), None);
  }

  /** Paused twice with no block in between, a second of pause is cut out twice: the
      block 20 ms after it lands almost a full turn of the clock later. */
  lemma PausedTwice(p: seq<byte>, q: seq<byte>)
    ensures var acts := Delivery(AudioItem(0, p)) + Break([AudioItem(48000, p)]) + Break([]) + Delivery(AudioItem(48960, q));
            var out := Exec(acts).rec.audio.out;
            |out| == 2 && out[0].ms == 0 && out[1].ms == AudioMs(TWO32 - 47040)
  {
    var acts := Delivery(AudioItem(0, p)) + Break([AudioItem(48000, p)]) + Break([]);
    BothBreaks(p);
    NextDelivery(acts, AudioItem(48960, q));
    AudioThrough(Exec(acts).rec, 48960, q, TWO32 - 47040);
  }

  /** A whole keyframe opens the file, off by whatever shift there is. */
  lemma KeyframeOpens(v: VideoTrack, t: nat, key: seq<byte>)
    requires KeyByte(key) && !v.wroteKey
    ensures HandleVideo(v, true, VideoItem(t, true, Vp8(true, 0, key))).out
         == v.out + [Block(true, VideoMs(Wrap32(0 - v.clock.shift)), key)]
  {
  }

  lemma HeldBeforeKeyframe(body: seq<byte>)
    ensures var s := Exec(Delivery(VideoItem(9000, false, Vp8(false, 0, body))) + Break([]));
            Idle(s) && !s.rec.video.wroteKey && s.rec.video.out == [] && s.rec.video.clock.shift == 9000
  {
    var item := VideoItem(9000, false, Vp8(false, 0, body));
    FirstDelivery(item);
    assert Exec(Delivery(item)).rec.video.clock == Clock(true, 9000, 0, 0, 9000, 0);
    NextBreak(Delivery(item), None);
  }

  /** Resumed between the first video packet and the first keyframe, the file starts
      almost a full turn of the clock late. */
  lemma ResumedBeforeKeyframe(body: seq<byte>, key: seq<byte>)
    requires KeyByte(key)
    ensures var acts := Delivery(VideoItem(9000, false, Vp8(false, 0, body))) + Break([])
                        + Delivery(VideoItem(9000, true, Vp8(true, 0, key)));
            var out := Exec(acts).rec.video.out;
            |out| == 1 && out[0].ms == VideoMs(TWO32 - 9000)
  {
    var acts, item := Delivery(VideoItem(9000, false, Vp8(false, 0, body))) + Break([]), VideoItem(9000, true, Vp8(true, 0, key));
    HeldBeforeKeyframe(body);
    NextDelivery(acts, item);
    KeyframeOpens(Look(Exec(acts).rec, item).video, 9000, key);
  }

  lemma QueuedBreak(s: Sys, queued: Item, seen: Item)
    requires Idle(s)
    ensures var r := Look(RecorderCore.Pause(Look(s.rec, queued)), seen);
            var t := Steps(s, [Arrive(queued), DoPause, Arrive(seen), DoResume]);
            && Queued(t, queued)
            && t.rec.video == RecorderCore.Resume(r).video && t.rec.audio == RecorderCore.Resume(r).audio
  {
    StepsFour(s, Arrive(queued), DoPause, Arrive(seen), DoResume);
    var s1 := Step(s, Arrive(queued));
    TeardownStep(s, Arrive(queued));
    assert s1.rec.gate.chan == [queued];
    var s2 := Step(s1, DoPause);
    TeardownStep(s1, DoPause);
    var s3 := Step(s2, Arrive(seen));
    TeardownStep(s2, Arrive(seen));
    TeardownStep(s3, DoResume);
  }

  function HeldBack(p: seq<byte>, q: seq<byte>): seq<Action> {
    Delivery(AudioItem(0, p)) + [Arrive(AudioItem(48000, q)), DoPause, Arrive(AudioItem(96000, p)), DoResume]
  }

  lemma HeldBackShift(p: seq<byte>, q: seq<byte>)
    ensures var s := Exec(HeldBack(p, q));
            && Queued(s, AudioItem(48000, q)) && |s.rec.audio.out| == 1
            && s.rec.audio.clock == Clock(true, 0, 0, 96000, 96000, 0)
  {
    var i1, i2, i3 := AudioItem(0, p), AudioItem(48000, q), AudioItem(96000, p);
    FirstDelivery(i1);
    var s1 := Exec(Delivery(i1));
    assert s1.rec.audio == AudioTrack(Clock(true, 0, 0, 0, 0, 0), [Block(true, 0, p)]);
    QueuedBreak(s1, i2, i3);
    BreakShift(Look(s1.rec, i2), 96000, p);
    ExecSteps(Delivery(i1), [Arrive(i2), DoPause, Arrive(i3), DoResume]);
  }

  lemma HeldBackWritten(p: seq<byte>, q: seq<byte>)
    ensures var s, t := Exec(HeldBack(p, q)), Exec(HeldBack(p, q) + TURN);
            && Idle(t) && t.rec.audio.clock == Clock(true, 0, 48000, 96000, 96000, 0)
            && |s.rec.audio.out| == 1 && t.rec.audio.out == s.rec.audio.out + [Block(true, AudioMs(TWO32 - 48000), q)]
  {
    HeldBackShift(p, q);
    var s := Exec(HeldBack(p, q));
    ExecSteps(HeldBack(p, q), TURN);
    Turned(s, AudioItem(48000, q));
    AudioWritten(s.rec.audio, 48000, q, TWO32 - 48000);
  }

  /** A packet still queued at the Pause is written after the Resume: it underflows,
      lands almost a full turn of the clock later, and the next block goes back. */
  lemma QueuedAtPause(p: seq<byte>, q: seq<byte>, r: seq<byte>)
    ensures var out := Exec(HeldBack(p, q) + TURN + Delivery(AudioItem(96960, r))).rec.audio.out;
            |out| == 3 && out[1].frame == q && out[1].ms == AudioMs(TWO32 - 48000) && out[2].ms == 20
  {
    var acts := HeldBack(p, q) + TURN;
    HeldBackWritten(p, q);
    NextDelivery(acts, AudioItem(96960, r));
    AudioThrough(Exec(acts).rec, 96960, r, 960);
  }

  // ---------------------------------------------------------------------------
  // Empty frame starts
  // ---------------------------------------------------------------------------

  /** After a keyframe start, an empty one opens the file with whatever follows. */
  lemma EmptyStartLetsAnInterFrameThrough(key: seq<byte>, rest: seq<byte>)
    requires KeyByte(key)
    ensures var acts := Delivery(VideoItem(0, false, Vp8(true, 0, key)))
                        + Delivery(VideoItem(3000, false, Vp8(true, 0, [])))
                        + Delivery(VideoItem(3000, true, Vp8(false, 0, rest)));
            var out := Exec(acts).rec.video.out;
            |out| == 1 && out[0].key && out[0].frame == rest
  {
    var i1, i2 := VideoItem(0, false, Vp8(true, 0, key)), VideoItem(3000, false, Vp8(true, 0, []));
    FirstDelivery(i1);
    NextDelivery(Delivery(i1), i2);
    NextDelivery(Delivery(i1) + Delivery(i2), VideoItem(3000, true, Vp8(false, 0, rest)));
  }

  /** And one that is a whole frame by itself opens it with an empty block. */
  lemma EmptyFrameOpensTheFile(key: seq<byte>)
    requires KeyByte(key)
    ensures var acts := Delivery(VideoItem(0, false, Vp8(true, 0, key)))
                        + Delivery(VideoItem(3000, true, Vp8(true, 0, [])));
            var out := Exec(acts).rec.video.out;
            |out| == 1 && out[0].key && out[0].frame == []
  {
    var i1 := VideoItem(0, false, Vp8(true, 0, key));
    FirstDelivery(i1);
    NextDelivery(Delivery(i1), VideoItem(3000, true, Vp8(true, 0, [])));
  }
}
