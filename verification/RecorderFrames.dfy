// What ends up in the file: VP8 frames are put back together from their packets,
// and a clean Finalise leaves every enqueued Opus packet, and every whole VP8 frame
// from the first keyframe on, in the file and in order.
module RecorderFrames {
  import opened Media
  import opened RecorderCore
  import opened RecorderMachine

  // ---------------------------------------------------------------------------
  // Video: reassembly
  // ---------------------------------------------------------------------------

  function Bodies(items: seq<Item>): seq<byte>
    requires forall i :: 0 <= i < |items| ==> items[i].VideoItem? && items[i].unit.Vp8?
  {
    if items == [] then [] else Bodies(items[..|items| - 1]) + items[|items| - 1].unit.body
  }

  /** The packets of one frame: a start, no further start, the marker last. */
  predicate FrameOf(items: seq<Item>) {
    && items != [] && items[0].StartsFrame() && items[0].unit.body != []
    && (forall i :: 0 <= i < |items| ==> items[i].VideoItem? && items[i].unit.Vp8?)
    && (forall i :: 0 < i < |items| ==> !items[i].StartsFrame())
    && (forall i :: 0 <= i < |items| ==> (items[i].marker <==> i == |items| - 1))
  }

  function HandleAll(v: VideoTrack, open: bool, items: seq<Item>): VideoTrack
    requires forall i :: 0 <= i < |items| ==> items[i].VideoItem?
  {
    if items == [] then v else HandleVideo(HandleAll(v, open, items[..|items| - 1]), open, items[|items| - 1])
  }

  lemma {:induction false} PartialFrame(v: VideoTrack, open: bool, items: seq<Item>, n: nat)
    requires FrameOf(items) && 0 < n < |items|
    ensures var w := HandleAll(v, open, items[..n]);
            && w.buf == Bodies(items[..n]) && w.keyAhead == KeyByte(items[0].unit.body)
            && w.out == v.out && w.wroteKey == v.wroteKey
  {
    var prefix := items[..n];
    assert prefix[..n - 1] == items[..n - 1];
    if n > 1 {
      PartialFrame(v, open, items, n - 1);
    } else {
      assert Bodies(prefix[..0]) == [];
    }
  }

  /** Whatever was left in the buffer by lost packets, a frame whose packets all
      arrive is written as one block: its packets' bodies in order, flagged by its
      own first byte. Before the first keyframe a frame that is none is dropped. */
  lemma FrameReassembles(v: VideoTrack, open: bool, items: seq<Item>)
    requires FrameOf(items)
    ensures var w := HandleAll(v, open, items);
            var key := KeyByte(items[0].unit.body);
            && w.buf == [] && w.wroteKey == (v.wroteKey || key)
            && if open && (v.wroteKey || key)
               then |w.out| == |v.out| + 1 && w.out[..|v.out|] == v.out
                    && w.out[|v.out|].key == key && w.out[|v.out|].frame == Bodies(items)
               else w.out == v.out
  {
    var n := |items| - 1;
    if n > 0 {
      PartialFrame(v, open, items, n);
    } else {
      assert items[..0] == [];
    }
    var u := HandleAll(v, open, items[..n]);
    var a := Assemble(u, items[n].Ts(), items[n].unit);
    assert a.buf == Bodies(items) && a.keyAhead == KeyByte(items[0].unit.body);
    assert a.out == v.out && a.wroteKey == v.wroteKey;
  }

  // ---------------------------------------------------------------------------
  // Audio: every packet, in order
  // ---------------------------------------------------------------------------

  function Payloads(items: seq<Item>): seq<seq<byte>> {
    if items == [] then []
    else
      var last := items[|items| - 1];
      Payloads(items[..|items| - 1]) + if last.AudioItem? then [last.payload] else []
  }

  function Contents(blocks: seq<Block>): seq<seq<byte>> {
    seq(|blocks|, i requires 0 <= i < |blocks| => blocks[i].frame)
  }

  /** As long as the tracks are open, and after a clean Finalise, the audio track
      holds exactly the handled audio packets. */
  predicate AudioInv(s: Sys) {
    s.rec.gate.tracks || (s.cause == Finalised && s.closer == Done(false)) ==>
      Contents(s.rec.audio.out) == Payloads(s.hist.handled)
  }

  lemma PayloadsNext(items: seq<Item>, item: Item)
    ensures Payloads(items + [item]) == Payloads(items) + if item.AudioItem? then [item.payload] else []
  {
    assert (items + [item])[..|items|] == items;
  }

  lemma AudioStep(s: Sys, a: Action)
    requires TeardownInv(s) && AudioInv(s)
    ensures AudioInv(Step(s, a))
  {
    if a.Assembled? && s.writer.Holding? {
      var item := s.writer.item;
      PayloadsNext(s.hist.handled, item);
      HandleKeepsGate(s.rec, item);
      var out := Handle(s.rec, item).audio.out;
      assert item.AudioItem? && s.rec.gate.tracks ==> Contents(out) == Contents(s.rec.audio.out) + [item.payload];
    }
  }

  lemma {:induction false} AudioAlways(acts: seq<Action>)
    ensures AudioInv(Exec(acts))
  {
    if acts != [] {
      AudioAlways(acts[..|acts| - 1]);
      Teardown(acts[..|acts| - 1]);
      AudioStep(Exec(acts[..|acts| - 1]), acts[|acts| - 1]);
    }
  }

  /** When Finalise neither times out nor meets a writer panic, the audio track it
      closes holds every enqueued Opus packet, in order and unchanged. */
  lemma CleanFinaliseKeepsAllAudio(acts: seq<Action>)
    requires Exec(acts).cause == Finalised && Exec(acts).closer == Done(false) && !Exec(acts).hist.panicked
    ensures Contents(Exec(acts).rec.audio.out) == Payloads(Exec(acts).hist.enqueued)
  {
    AudioAlways(acts);
    FinaliseFlushes(acts);
  }

  // ---------------------------------------------------------------------------
  // Video: every whole frame, in order
  // ---------------------------------------------------------------------------

  function Videos(items: seq<Item>): (vs: seq<Item>)
    ensures forall i :: 0 <= i < |vs| ==> vs[i].VideoItem?
  {
    if items == [] then []
    else
      var last := items[|items| - 1];
      Videos(items[..|items| - 1]) + if last.VideoItem? then [last] else []
  }

  lemma VideosNext(items: seq<Item>, item: Item)
    ensures Videos(items + [item]) == if item.VideoItem? then Videos(items) + [item] else Videos(items)
  {
    assert (items + [item])[..|items|] == items;
  }

  lemma HandleNext(v: VideoTrack, open: bool, items: seq<Item>, item: Item)
    requires (forall i :: 0 <= i < |items| ==> items[i].VideoItem?) && item.VideoItem?
    ensures HandleAll(v, open, items + [item]) == HandleVideo(HandleAll(v, open, items), open, item)
  {
    assert (items + [item])[..|items|] == items;
  }

  const FRESH_VIDEO: VideoTrack := NewRec(true).video

  /** The same assembly and the same blocks, times aside. */
  predicate Alike(v: VideoTrack, w: VideoTrack) {
    && v.buf == w.buf && v.keyAhead == w.keyAhead && v.wroteKey == w.wroteKey && |v.out| == |w.out|
    && forall i :: 0 <= i < |v.out| ==> v.out[i].key == w.out[i].key && v.out[i].frame == w.out[i].frame
  }

  lemma HandleAlike(v: VideoTrack, w: VideoTrack, item: Item)
    requires Alike(v, w) && item.VideoItem?
    ensures Alike(HandleVideo(v, true, item), HandleVideo(w, true, item))
  {
  }

  /** As long as the tracks are open, and after a clean Finalise, the video track is
      the handled video packets put together one after the other. */
  predicate VideoInv(s: Sys) {
    s.rec.gate.tracks || (s.cause == Finalised && s.closer == Done(false)) ==>
      Alike(s.rec.video, HandleAll(FRESH_VIDEO, true, Videos(s.hist.handled)))
  }

  lemma AssembledKeepsVideo(s: Sys)
    requires TeardownInv(s) && VideoInv(s) && s.writer.Holding?
    ensures VideoInv(AssembledStep(s))
  {
    var item, was := s.writer.item, Videos(s.hist.handled);
    VideosNext(s.hist.handled, item);
    HandleKeepsGate(s.rec, item);
    if s.rec.gate.tracks && item.VideoItem? {
      HandleNext(FRESH_VIDEO, true, was, item);
      HandleAlike(s.rec.video, HandleAll(FRESH_VIDEO, true, was), item);
    }
  }

  lemma VideoStep(s: Sys, a: Action)
    requires TeardownInv(s) && VideoInv(s)
    ensures VideoInv(Step(s, a))
  {
    if a.Assembled? && s.writer.Holding? {
      AssembledKeepsVideo(s);
    }
  }

  lemma {:induction false} VideoAlways(acts: seq<Action>)
    ensures VideoInv(Exec(acts))
  {
    if acts != [] {
      VideoAlways(acts[..|acts| - 1]);
      Teardown(acts[..|acts| - 1]);
      VideoStep(Exec(acts[..|acts| - 1]), acts[|acts| - 1]);
    }
  }

  predicate AllVideo(items: seq<Item>) {
    forall i :: 0 <= i < |items| ==> items[i].VideoItem?
  }

  /** Packets `i` to `j` are one frame, none missing. */
  predicate WholeFrame(items: seq<Item>, i: nat, j: nat) {
    i < j <= |items| && FrameOf(items[i..j])
  }

  predicate WholeKeyframe(items: seq<Item>, i: nat, j: nat) {
    WholeFrame(items, i, j) && KeyByte(items[i].unit.body)
  }

  /** How many blocks the packets before `i` make. */
  function BlockIndex(items: seq<Item>, i: nat): nat
    requires AllVideo(items) && i <= |items|
  {
    |HandleAll(FRESH_VIDEO, true, items[..i]).out|
  }

  lemma {:induction false} HandleInTwo(v: VideoTrack, a: seq<Item>, b: seq<Item>)
    requires AllVideo(a) && AllVideo(b)
    ensures AllVideo(a + b)
    ensures HandleAll(v, true, a + b) == HandleAll(HandleAll(v, true, a), true, b)
    decreases |b|
  {
    if b == [] {
      assert a + b == a;
    } else {
      HandleInTwo(v, a, b[..|b| - 1]);
      ConcatLast(a, b);
    }
  }

  lemma {:induction false} BlocksStay(v: VideoTrack, items: seq<Item>)
    requires AllVideo(items)
    ensures var w := HandleAll(v, true, items); v.out <= w.out && (v.wroteKey ==> w.wroteKey)
  {
    if items != [] {
      BlocksStay(v, items[..|items| - 1]);
    }
  }

  lemma SplitAt(items: seq<Item>, i: nat, j: nat)
    requires AllVideo(items) && i <= j <= |items|
    ensures AllVideo(items[..i]) && AllVideo(items[i..j])
    ensures HandleAll(FRESH_VIDEO, true, items[..j])
         == HandleAll(HandleAll(FRESH_VIDEO, true, items[..i]), true, items[i..j])
    ensures items[..|items|] == items
  {
    assert items[..j] == items[..i] + items[i..j];
    HandleInTwo(FRESH_VIDEO, items[..i], items[i..j]);
  }

  /** A whole frame, itself a keyframe or after one, is the block of its index and
      nobody else's. */
  lemma FrameHasItsBlock(items: seq<Item>, i: nat, j: nat)
    requires AllVideo(items) && WholeFrame(items, i, j)
    requires KeyByte(items[i].unit.body) || HandleAll(FRESH_VIDEO, true, items[..i]).wroteKey
    ensures BlockIndex(items, j) == BlockIndex(items, i) + 1
    ensures HandleAll(FRESH_VIDEO, true, items[..j]).wroteKey
    ensures var n, out := BlockIndex(items, i), HandleAll(FRESH_VIDEO, true, items).out;
            n < |out| && out[n].frame == Bodies(items[i..j]) && out[n].key == KeyByte(items[i].unit.body)
  {
    SplitAt(items, i, j);
    FrameReassembles(HandleAll(FRESH_VIDEO, true, items[..i]), true, items[i..j]);
    SplitAt(items, j, |items|);
    BlocksStay(HandleAll(FRESH_VIDEO, true, items[..j]), items[j..]);
  }

  lemma IndexGrows(items: seq<Item>, i: nat, j: nat)
    requires AllVideo(items) && i <= j <= |items|
    ensures BlockIndex(items, i) <= BlockIndex(items, j)
    ensures HandleAll(FRESH_VIDEO, true, items[..i]).wroteKey ==> HandleAll(FRESH_VIDEO, true, items[..j]).wroteKey
  {
    SplitAt(items, i, j);
    BlocksStay(HandleAll(FRESH_VIDEO, true, items[..i]), items[i..j]);
  }

  /** At a whole frame that is, or follows, a whole keyframe the gate is open. */
  predicate FromKeyframe(items: seq<Item>, i: nat, j: nat, key: nat, keyEnd: nat) {
    && WholeKeyframe(items, key, keyEnd) && WholeFrame(items, i, j)
    && ((key == i && keyEnd == j) || keyEnd <= i)
  }

  lemma KeyframeOpensTheGate(items: seq<Item>, i: nat, j: nat, key: nat, keyEnd: nat)
    requires AllVideo(items) && FromKeyframe(items, i, j, key, keyEnd)
    ensures KeyByte(items[i].unit.body) || HandleAll(FRESH_VIDEO, true, items[..i]).wroteKey
  {
    if keyEnd <= i {
      FrameHasItsBlock(items, key, keyEnd);
      IndexGrows(items, keyEnd, i);
    }
  }

  /** When Finalise neither times out nor meets a writer panic, every frame enqueued
      whole from a whole keyframe on is a block of the file, with its own key flag. */
  lemma CleanFinaliseKeepsAllFrames(acts: seq<Action>, key: nat, keyEnd: nat, i: nat, j: nat)
    requires Exec(acts).cause == Finalised && Exec(acts).closer == Done(false) && !Exec(acts).hist.panicked
    requires FromKeyframe(Videos(Exec(acts).hist.enqueued), i, j, key, keyEnd)
    ensures var items, out := Videos(Exec(acts).hist.enqueued), Exec(acts).rec.video.out;
            var n := BlockIndex(items, i);
            n < |out| && out[n].frame == Bodies(items[i..j]) && out[n].key == KeyByte(items[i].unit.body)
  {
    var items := Videos(Exec(acts).hist.enqueued);
    VideoAlways(acts);
    FinaliseFlushes(acts);
    KeyframeOpensTheGate(items, i, j, key, keyEnd);
    FrameHasItsBlock(items, i, j);
  }

  /** And frames that follow each other are blocks that follow each other. */
  lemma FramesStayInOrder(items: seq<Item>, key: nat, keyEnd: nat, i: nat, j: nat, k: nat)
    requires AllVideo(items) && FromKeyframe(items, i, j, key, keyEnd) && j <= k <= |items|
    ensures BlockIndex(items, i) < BlockIndex(items, k)
  {
    KeyframeOpensTheGate(items, i, j, key, keyEnd);
    FrameHasItsBlock(items, i, j);
    IndexGrows(items, j, k);
  }

  // ---------------------------------------------------------------------------
  // The sequential Finalise
  // ---------------------------------------------------------------------------

  lemma {:induction false} PayloadsFront(item: Item, rest: seq<Item>)
    ensures Payloads([item] + rest) == (if item.AudioItem? then [item.payload] else []) + Payloads(rest)
    decreases |rest|
  {
    if rest == [] {
      assert [item] + rest == [item] && [item][..0] == [];
    } else {
      PayloadsFront(item, rest[..|rest| - 1]);
      ConcatLast([item], rest);
    }
  }

  lemma {:induction false} VideosFront(item: Item, rest: seq<Item>)
    ensures Videos([item] + rest) == (if item.VideoItem? then [item] else []) + Videos(rest)
    decreases |rest|
  {
    if rest == [] {
      assert [item] + rest == [item] && [item][..0] == [];
    } else {
      VideosFront(item, rest[..|rest| - 1]);
      ConcatLast([item], rest);
    }
  }

  /** The recorder has had exactly these packets written since `r`. */
  predicate Wrote(r: Rec, d: Rec, items: seq<Item>) {
    && Contents(d.audio.out) == Contents(r.audio.out) + Payloads(items)
    && d.video == HandleAll(r.video, true, Videos(items))
  }

  /** A closed recorder with its tracks open writes the oldest packet of the queue. */
  lemma TurnWrites(r: Rec, disk: nat -> bool)
    requires r.gate.chan != [] && r.gate.closed && r.gate.tracks
    ensures var t, item := WriterTurn(r, disk), r.gate.chan[0];
            && t.gate == r.gate.(chan := r.gate.chan[1..], streak := t.gate.streak)
            && Contents(t.audio.out) == Contents(r.audio.out) + (if item.AudioItem? then [item.payload] else [])
            && t.video == if item.VideoItem? then HandleVideo(r.video, true, item) else r.video
  {
    HandleKeepsGate(Taken(r), r.gate.chan[0]);
  }

  lemma WroteFront(r: Rec, t: Rec, d: Rec, item: Item, rest: seq<Item>)
    requires Contents(t.audio.out) == Contents(r.audio.out) + (if item.AudioItem? then [item.payload] else [])
    requires t.video == if item.VideoItem? then HandleVideo(r.video, true, item) else r.video
    requires Wrote(t, d, rest)
    ensures Wrote(r, d, [item] + rest)
  {
    PayloadsFront(item, rest);
    VideosFront(item, rest);
    if item.VideoItem? {
      assert [item][..0] == [];
      assert HandleAll(r.video, true, [item]) == t.video;
      HandleInTwo(r.video, [item], Videos(rest));
    } else {
      assert [] + Videos(rest) == Videos(rest);
    }
  }

  /** The first turn of a drain, and what is left of the drain. */
  lemma DrainNext(r: Rec, disk: nat -> bool, turns: nat) returns (t: Rec)
    requires r.gate.closed && r.gate.tracks && 0 < turns <= |r.gate.chan|
    ensures DrainUpTo(r, disk, turns) == DrainUpTo(t, disk, turns - 1)
    ensures t.gate == r.gate.(chan := r.gate.chan[1..], streak := t.gate.streak)
    ensures var item := r.gate.chan[0];
            && Contents(t.audio.out) == Contents(r.audio.out) + (if item.AudioItem? then [item.payload] else [])
            && t.video == if item.VideoItem? then HandleVideo(r.video, true, item) else r.video
  {
    t := WriterTurn(r, disk);
    TurnWrites(r, disk);
  }

  lemma WroteNothing(r: Rec)
    ensures Wrote(r, r, [])
  {
    assert Contents(r.audio.out) + [] == Contents(r.audio.out);
  }

  lemma {:induction false} DrainLeaves(r: Rec, disk: nat -> bool, turns: nat)
    requires r.gate.closed && r.gate.tracks && turns <= |r.gate.chan|
    ensures var g := DrainUpTo(r, disk, turns).gate; g == r.gate.(chan := r.gate.chan[turns..], streak := g.streak)
    decreases turns
  {
    if turns > 0 {
      var t := DrainNext(r, disk, turns);
      DrainLeaves(t, disk, turns - 1);
      assert r.gate.chan[1..][turns - 1..] == r.gate.chan[turns..];
    }
  }

  lemma {:induction false} DrainWrites(r: Rec, disk: nat -> bool, turns: nat, items: seq<Item>)
    requires r.gate.closed && r.gate.tracks && turns <= |r.gate.chan| && items == r.gate.chan[..turns]
    ensures Wrote(r, DrainUpTo(r, disk, turns), items)
    decreases turns
  {
    if turns == 0 {
      WroteNothing(r);
    } else {
      var t := DrainNext(r, disk, turns);
      DrainWrites(t, disk, turns - 1, items[1..]);
      WroteFront(r, t, DrainUpTo(t, disk, turns - 1), items[0], items[1..]);
      assert [items[0]] + items[1..] == items;
    }
  }

  lemma {:induction false} DrainStops(r: Rec, disk: nat -> bool, turns: nat)
    requires |r.gate.chan| <= turns
    ensures DrainUpTo(r, disk, turns) == DrainUpTo(r, disk, |r.gate.chan|)
    decreases turns
  {
    if r.gate.chan != [] {
      TurnShortens(r, disk);
      DrainStops(WriterTurn(r, disk), disk, turns - 1);
    }
  }

  lemma FinaliseOnce(r: Rec, disk: nat -> bool, turns: nat)
    ensures r.gate.closed ==> Finalise(r, disk, turns) == r
    ensures Finalise(r, disk, turns).gate.closed
  {
    if !r.gate.closed {
      DrainStaysClosed(r.(gate := StopIntake(r.gate)), disk, turns);
    }
  }

  lemma {:induction false} DrainStaysClosed(r: Rec, disk: nat -> bool, turns: nat)
    requires r.gate.closed
    ensures DrainUpTo(r, disk, turns).gate.closed
    decreases turns
  {
    if r.gate.chan != [] && turns > 0 {
      HandleKeepsGate(Taken(r), r.gate.chan[0]);
      DrainStaysClosed(WriterTurn(r, disk), disk, turns - 1);
    }
  }

  /** Finalise on an open recorder: the packets it has time for are in the file, the
      oldest first, before the tracks close; with time for all, all of them. */
  lemma FinaliseWritesTheQueue(r: Rec, disk: nat -> bool, turns: nat)
    requires !r.gate.closed && r.gate.tracks
    ensures var n := if turns < |r.gate.chan| then turns else |r.gate.chan|;
            var f := Finalise(r, disk, turns);
            && Wrote(r, f, r.gate.chan[..n]) && f.gate.chan == r.gate.chan[n..]
            && !f.gate.tracks && !f.gate.intake && f.gate.closed && f.gate.state == Finished
            && f.gate.dropped == r.gate.dropped
  {
    var n := if turns < |r.gate.chan| then turns else |r.gate.chan|;
    var s := r.(gate := StopIntake(r.gate));
    DrainLeaves(s, disk, n);
    DrainWrites(s, disk, n, r.gate.chan[..n]);
    if n < turns {
      DrainStops(s, disk, turns);
    }
  }

  // ---------------------------------------------------------------------------
  // The callback
  // ---------------------------------------------------------------------------

  /** What the callback does with a packet, in each of the recorder's states: nothing
      once closed, only the clock while paused, and while recording the async recorder
      queues it and the inline one writes it at once. */
  lemma CallbackMeans(r: Rec, item: Item, ok: bool)
    ensures r.gate.closed ==> OnPacket(r, item, ok) == r
    ensures !r.gate.closed && r.gate.state != Recording ==>
              var t := OnPacket(r, item, ok);
              && t.gate == r.gate && t.video.out == r.video.out && t.audio.out == r.audio.out
              && (if item.VideoItem? then t.video.clock.lastSeen == item.Ts() && t.audio == r.audio
                  else t.audio.clock.lastSeen == item.Ts() && t.video == r.video)
    ensures !r.gate.closed && r.gate.state == Recording && r.gate.async ==>
              OnPacket(r, item, ok) == Offer(r, item)
    ensures !r.gate.closed && r.gate.state == Recording && !r.gate.async && r.gate.tracks ==>
              var t := OnPacket(r, item, ok);
              && t.gate == r.gate.(streak := t.gate.streak)
              && Contents(t.audio.out) == Contents(r.audio.out) + (if item.AudioItem? then [item.payload] else [])
              && (item.VideoItem? ==> Alike(t.video, HandleVideo(r.video, true, item)))
  {
    HandleKeepsGate(Look(r, item), item);
    if item.VideoItem? {
      HandleAlike(Look(r, item).video, r.video, item);
    }
  }

  /** A block write that fails is counted, one that succeeds clears the count, and a
      packet that makes no block is neither. */
  lemma OutcomeIsNoted(r: Rec, item: Item, ok: bool)
    requires r.gate.closed || !r.gate.async
    ensures var t := Process(r, item, ok);
            t.gate.streak == if Blocks(t) == Blocks(r) then r.gate.streak else if ok then 0 else r.gate.streak + 1
  {
    HandleKeepsGate(r, item);
  }

  /** Pause and Resume move between recording and paused and touch neither the queue
      nor the file; in any other state they do nothing. */
  lemma PauseAndResume(r: Rec)
    ensures var p := Pause(r);
            && p.gate == (if r.gate.state == Recording then r.gate.(state := Paused) else r.gate)
            && p.video == r.video.(clock := p.video.clock) && p.audio == r.audio.(clock := p.audio.clock)
            && (r.gate.state != Recording ==> p == r)
    ensures var p := Resume(r);
            && p.gate == (if r.gate.state == Paused then r.gate.(state := Recording) else r.gate)
            && p.video == r.video.(clock := p.video.clock) && p.audio == r.audio.(clock := p.audio.clock)
            && (r.gate.state != Paused ==> p == r)
    ensures Resume(Pause(r)).gate == if r.gate.state == Paused then r.gate.(state := Recording) else r.gate
  {
  }
}
