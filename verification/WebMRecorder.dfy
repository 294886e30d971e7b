// WebMRecorder with its fields, each method proved against RecorderCore.
//
// Every method body is one critical section of the source, or a sequence of
// them with no other goroutine in between (Process, WriteLoop, Finalise); the
// interleavings are the subject of RecorderMachine.dfy.
module WebMRecorder {
  import opened Media
  import opened TrackClock
  import opened RecorderCore

  class WebMRecorder {
    const async: bool
    var state: RecordingState
    var closed: bool
    var queueOpen: bool
    var tracksOpen: bool
    var queue: seq<Item>
    var dropped: nat
    var writeErrStreak: nat

    var vp8Buf: seq<byte>
    var vp8KeyAhead: bool
    var vp8WroteKey: bool
    var lastVideoTsMs: int

    var video: Clock  // the vp8* and *Video timestamps
    var audio: Clock  // the opus* and *Audio timestamps

    var videoTrack: seq<Block>
    var audioTrack: seq<Block>

    ghost function GateView(): Gate
      reads this
    {
      Gate(async, state, closed, queueOpen, tracksOpen, queue, dropped, writeErrStreak)
    }

    ghost function VideoView(): VideoTrack
      reads this
    {
      VideoTrack(vp8Buf, vp8KeyAhead, vp8WroteKey, lastVideoTsMs,
                 video, videoTrack)
    }

    ghost function AudioView(): AudioTrack
      reads this
    {
      AudioTrack(audio, audioTrack)
    }

    ghost function View(): Rec
      reads this
    {
      Rec(GateView(), VideoView(), AudioView())
    }

    constructor (async: bool)
      ensures View() == NewRec(async)
    {
      this.async := async;
      state, closed, queueOpen, tracksOpen := Recording, false, async, true;
      queue, dropped, writeErrStreak := [], 0, 0;
      vp8Buf, vp8KeyAhead, vp8WroteKey, lastVideoTsMs := [], false, false, 0;
      video, audio := FRESH, FRESH;
      videoTrack, audioTrack := [], [];
    }

    /** The fan-out callback up to the release of the mutex; `inline` says that the
        caller is to process the packet itself. */
    method AcceptPacket(pkt: Item) returns (inline: bool)
      modifies `video, `audio, `queue, `dropped
      ensures View() == Accept(old(View()), pkt)
      ensures inline <==> GoesInline(old(View()))
    {
      if closed {
        return false;
      }
      if pkt.VideoItem? {
        video := video.(lastSeen := pkt.Ts());
      } else {
        audio := audio.(lastSeen := pkt.Ts());
      }
      if state != Recording {
        return false;
      }
      if async {
        if queueOpen && |queue| < QUEUE_SIZE {
          queue := queue + [pkt];
        } else {
          dropped := dropped + 1;
        }
        return false;
      }
      return true;
    }

    /** The whole callback with nothing in between. `ok` is the outcome of the block
        write the inline path may perform. */
    method OnPacket(pkt: Item, ok: bool)
      modifies this
      ensures View() == RecorderCore.OnPacket(old(View()), pkt, ok)
    {
      var inline := AcceptPacket(pkt);
      if inline {
        ProcessItem(pkt, ok);
      }
    }

    method HandleVP8(pkt: Item) returns (block: Option<Block>)
      requires pkt.VideoItem?
      modifies `vp8Buf, `vp8KeyAhead, `vp8WroteKey, `lastVideoTsMs, `video, `videoTrack
      ensures VideoView() == HandleVideo(old(VideoView()), tracksOpen, pkt)
      ensures block.Some? <==> |videoTrack| != |old(videoTrack)|
    {
      if pkt.unit.Malformed? {
        return None;
      }
      AssembleVP8(pkt);
      if !pkt.marker {
        return None;
      }
      block := EmitVP8(pkt.Ts());
    }

    method AssembleVP8(pkt: Item)
      requires pkt.VideoItem? && pkt.unit.Vp8?
      modifies `vp8Buf, `vp8KeyAhead, `video
      ensures VideoView() == Assemble(old(VideoView()), pkt.Ts(), pkt.unit)
    {
      if !video.firstSeen {
        video := video.(firstSeen := true, first := pkt.Ts());
      }
      if pkt.unit.start && pkt.unit.pid == 0 {
        vp8Buf := [];
        if |pkt.unit.body| > 0 {
          vp8KeyAhead := pkt.unit.body[0] % 2 == 0;
        }
      }
      vp8Buf := vp8Buf + pkt.unit.body;
    }

    method EmitVP8(ts: u32) returns (block: Option<Block>)
      modifies `vp8Buf, `vp8WroteKey, `lastVideoTsMs, `video, `videoTrack
      ensures VideoView() == Emit(old(VideoView()), tracksOpen, ts)
      ensures block.Some? <==> |videoTrack| != |old(videoTrack)|
    {
      var frame := vp8Buf;
      var keyframe := vp8KeyAhead;
      vp8Buf := [];
      if !vp8WroteKey {
        if !keyframe {
          return None;
        }
        vp8WroteKey := true;
        video := video.(first := ts);
      }
      video := video.(last := ts);
      var tsMs := Wrap32(Wrap32(ts - video.first) - video.shift) * 1000 / 90000;
      lastVideoTsMs := tsMs;
      if tracksOpen {
        block := Some(Block(keyframe, tsMs, frame));
        videoTrack := videoTrack + [block.value];
      } else {
        block := None;
      }
    }

    method HandleOpus(pkt: Item) returns (block: Option<Block>)
      requires pkt.AudioItem?
      modifies `audio, `audioTrack
      ensures AudioView() == HandleAudio(old(AudioView()), tracksOpen, pkt)
      ensures block.Some? <==> |audioTrack| != |old(audioTrack)|
    {
      if !audio.firstSeen {
        audio := audio.(firstSeen := true, first := pkt.Ts());
      }
      audio := audio.(last := pkt.Ts());
      var tsMs := Wrap32(Wrap32(pkt.Ts() - audio.first) - audio.shift) * 1000 / 48000;
      if tracksOpen {
        block := Some(Block(true, tsMs, pkt.payload));
        audioTrack := audioTrack + [block.value];
      } else {
        block := None;
      }
    }

    method NoteWriteResult(ok: bool)
      modifies `writeErrStreak, `closed, `state, `queueOpen, `tracksOpen
      ensures GateView() == Settle(old(GateView()), ok)
    {
      if ok {
        writeErrStreak := 0;
        return;
      }
      writeErrStreak := writeErrStreak + 1;
      if async && writeErrStreak >= WRITE_ERROR_THRESHOLD {
        MarkFailed();
      }
    }

    method MarkFailed()
      modifies `closed, `state, `queueOpen, `tracksOpen
      ensures GateView() == Fail(old(GateView()))
    {
      if closed {
        return;
      }
      closed := true;
      state := Failed;
      queueOpen := false;
      tracksOpen := false;
    }

    method ProcessItem(pkt: Item, ok: bool)
      modifies `vp8Buf, `vp8KeyAhead, `vp8WroteKey, `lastVideoTsMs, `video
      modifies `audio, `videoTrack, `audioTrack
      modifies `writeErrStreak, `closed, `state, `queueOpen, `tracksOpen
      ensures View() == Process(old(View()), pkt, ok)
    {
      ghost var before := View();
      var block: Option<Block>;
      if pkt.VideoItem? {
        block := HandleVP8(pkt);
        assert View() == before.(video := HandleVideo(before.video, before.gate.tracks, pkt));
      } else {
        block := HandleOpus(pkt);
        assert View() == before.(audio := HandleAudio(before.audio, before.gate.tracks, pkt));
      }
      assert View() == Handle(before, pkt);
      assert block.Some? <==> Blocks(View()) != Blocks(before);
      if block.Some? {
        NoteWriteResult(ok);
      }
    }

    /** One turn of the writer loop. */
    method WriteNext(disk: nat -> bool)
      requires queue != []
      modifies `vp8Buf, `vp8KeyAhead, `vp8WroteKey, `lastVideoTsMs, `video, `audio, `videoTrack, `audioTrack
      modifies `writeErrStreak, `closed, `state, `queueOpen, `tracksOpen, `queue
      ensures View() == WriterTurn(old(View()), disk)
      ensures |queue| < |old(queue)|
    {
      var item := queue[0];
      var ok := disk(|videoTrack| + |audioTrack|);
      queue := queue[1..];
      ProcessItem(item, ok);
    }

    /** The writer goroutine once the queue has been closed. */
    method WriteLoop(disk: nat -> bool)
      modifies this
      ensures View() == Drain(old(View()), disk)
      ensures queue == []
    {
      while queue != []
        invariant Drain(View(), disk) == Drain(old(View()), disk)
        decreases |queue|
      {
        WriteNext(disk);
      }
    }

    method Pause()
      modifies `state, `video, `audio
      ensures View() == RecorderCore.Pause(old(View()))
    {
      if state != Recording {
        return;
      }
      state := Paused;
      video := video.(pausedAt := video.last);
      audio := audio.(pausedAt := audio.last);
    }

    method Resume()
      modifies `state, `video, `audio
      ensures View() == RecorderCore.Resume(old(View()))
    {
      if state != Paused {
        return;
      }
      if video.firstSeen {
        video := video.(shift := Wrap32(video.shift + Wrap32(video.lastSeen - video.pausedAt)));
      }
      if audio.firstSeen {
        audio := audio.(shift := Wrap32(audio.shift + Wrap32(audio.lastSeen - audio.pausedAt)));
      }
      state := Recording;
    }

    /** The writer during Finalise's wait: at most `turns` turns before the timeout. */
    method WriteUpTo(disk: nat -> bool, turns: nat)
      modifies this
      ensures View() == DrainUpTo(old(View()), disk, turns)
    {
      var n: nat := turns;
      while queue != [] && n > 0
        invariant n <= turns && DrainUpTo(View(), disk, n) == DrainUpTo(old(View()), disk, turns)
        decreases n
      {
        WriteNext(disk);
        n := n - 1;
      }
    }

    method Finalise(disk: nat -> bool, turns: nat)
      modifies this
      ensures View() == RecorderCore.Finalise(old(View()), disk, turns)
    {
      if closed {
        return;
      }
      closed := true;
      state := Finished;
      queueOpen := false;
      WriteUpTo(disk, turns);
      tracksOpen := false;
    }
  }
}
