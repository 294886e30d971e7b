// The viewer's packet handler: whatever sources a viewer is switched between, it
// sees one spliced timeline per kind.
//
// Each activation of a source makes a fresh closure (offset, keyframe gate); the
// viewer's counters outlive it. A packet may come from any activation made so far,
// so a straggler from an old source is covered too.
module ViewerTimeline {
  import opened Media
  import opened Vp8

  const VIDEO_STEP := 3000
  const AUDIO_STEP := 960

  datatype Packet = Packet(seqNo: u16, ts: u32, payload: seq<byte>)

  /** What a viewer keeps per kind across activations. */
  datatype Lane = Lane(seqNo: u16, lastTs: u32, lastSet: bool)

  /** What one activation's closure keeps per kind. */
  datatype Gate = Gate(offset: u32, ready: bool)

  function Opened(lane: Lane, gate: Gate, step: nat, ts: u32): Gate {
    if gate.ready then gate
    else Gate(if lane.lastSet then Wrap32(lane.lastTs + step - ts) else gate.offset, true)
  }

  function Rewritten(lane: Lane, gate: Gate, step: nat, pkt: Packet): Packet {
    Packet(Wrap16(lane.seqNo + 1), Wrap32(pkt.ts + Opened(lane, gate, step, pkt.ts).offset), pkt.payload)
  }

  function After(out: Packet): Lane {
    Lane(out.seqNo, out.ts, true)
  }

  // ---------------------------------------------------------------------------
  // The handler
  // ---------------------------------------------------------------------------

  /** The variables an activation's handler closes over. */
  class Activation {
    var waitingForKeyframe: bool
    var videoTSOffset: u32
    var audioTSOffset: u32
    var videoOffsetReady: bool
    var audioOffsetReady: bool

    ghost function VideoGate(): Gate
      reads this
    {
      Gate(videoTSOffset, videoOffsetReady)
    }

    ghost function AudioGate(): Gate
      reads this
    {
      Gate(audioTSOffset, audioOffsetReady)
    }

    constructor ()
      ensures waitingForKeyframe && VideoGate() == Gate(0, false) && AudioGate() == Gate(0, false)
    {
      waitingForKeyframe := true;
      videoTSOffset, audioTSOffset := 0, 0;
      videoOffsetReady, audioOffsetReady := false, false;
    }
  }

  class Viewer {
    var videoSeq: u16
    var audioSeq: u16
    var videoLastTS: u32
    var audioLastTS: u32
    var videoLastTSSet: bool
    var audioLastTSSet: bool

    ghost function VideoLane(): Lane
      reads this
    {
      Lane(videoSeq, videoLastTS, videoLastTSSet)
    }

    ghost function AudioLane(): Lane
      reads this
    {
      Lane(audioSeq, audioLastTS, audioLastTSSet)
    }

    constructor ()
      ensures VideoLane() == Lane(0, 0, false) && AudioLane() == Lane(0, 0, false)
    {
      videoSeq, audioSeq, videoLastTS, audioLastTS := 0, 0, 0, 0;
      videoLastTSSet, audioLastTSSet := false, false;
    }

    method OnVideo(a: Activation, pkt: Packet) returns (out: Option<Packet>)
      modifies `videoSeq, `videoLastTS, `videoLastTSSet
      modifies a`waitingForKeyframe, a`videoTSOffset, a`videoOffsetReady
      ensures out.None? <==> old(a.waitingForKeyframe) && !IsVP8Keyframe(pkt.payload)
      ensures out.None? ==> VideoLane() == old(VideoLane()) && a.VideoGate() == old(a.VideoGate())
      ensures out.Some? ==>
                && out.value == Rewritten(old(VideoLane()), old(a.VideoGate()), VIDEO_STEP, pkt)
                && a.VideoGate() == Opened(old(VideoLane()), old(a.VideoGate()), VIDEO_STEP, pkt.ts)
                && VideoLane() == After(out.value)
      ensures a.waitingForKeyframe <==> out.None?
    {
      if a.waitingForKeyframe {
        if !IsVP8Keyframe(pkt.payload) {
          return None;
        }
        a.waitingForKeyframe := false;
      }
      if !a.videoOffsetReady {
        if videoLastTSSet {
          a.videoTSOffset := Wrap32(videoLastTS + VIDEO_STEP - pkt.ts);
        }
        a.videoOffsetReady := true;
      }
      videoSeq := Wrap16(videoSeq + 1);
      var clone := Packet(videoSeq, Wrap32(pkt.ts + a.videoTSOffset), pkt.payload);
      videoLastTS := clone.ts;
      videoLastTSSet := true;
      out := Some(clone);
    }

    method OnAudio(a: Activation, pkt: Packet) returns (out: Packet)
      modifies `audioSeq, `audioLastTS, `audioLastTSSet
      modifies a`audioTSOffset, a`audioOffsetReady
      ensures out == Rewritten(old(AudioLane()), old(a.AudioGate()), AUDIO_STEP, pkt)
      ensures a.AudioGate() == Opened(old(AudioLane()), old(a.AudioGate()), AUDIO_STEP, pkt.ts)
      ensures AudioLane() == After(out)
    {
      if !a.audioOffsetReady {
        if audioLastTSSet {
          a.audioTSOffset := Wrap32(audioLastTS + AUDIO_STEP - pkt.ts);
        }
        a.audioOffsetReady := true;
      }
      audioSeq := Wrap16(audioSeq + 1);
      out := Packet(audioSeq, Wrap32(pkt.ts + a.audioTSOffset), pkt.payload);
      audioLastTS := out.ts;
      audioLastTSSet := true;
    }
  }

  // ---------------------------------------------------------------------------
  // What a viewer should see
  // ---------------------------------------------------------------------------

  /** One packet sent to the viewer and the source packet it was made from. */
  datatype Sent = Sent(activation: nat, source: Packet, out: Packet)

  /** No earlier packet of this kind came from the same activation. */
  predicate OpensActivation(sent: seq<Sent>, i: nat)
    requires i < |sent|
  {
    forall j :: 0 <= j < i ==> sent[j].activation != sent[i].activation
  }

  predicate Numbered(sent: seq<Sent>) {
    forall i :: 0 <= i < |sent| ==> sent[i].out.seqNo == Wrap16(i + 1)
  }

  /** Each later activation starts one step after the packet before it. */
  predicate Bridged(sent: seq<Sent>, step: nat) {
    forall i :: 0 < i < |sent| && OpensActivation(sent, i) ==>
      sent[i].out.ts == Wrap32(sent[i - 1].out.ts + step)
  }

  /** Within one activation the source's own spacing is kept. */
  predicate Spaced(sent: seq<Sent>) {
    forall i, j :: 0 <= i < j < |sent| && sent[i].activation == sent[j].activation ==>
      Wrap32(sent[j].out.ts - sent[i].out.ts) == Wrap32(sent[j].source.ts - sent[i].source.ts)
  }

  predicate StartsOnKeyframes(sent: seq<Sent>) {
    forall i :: 0 <= i < |sent| && OpensActivation(sent, i) ==> IsVP8Keyframe(sent[i].source.payload)
  }

  predicate Intact(sent: seq<Sent>) {
    forall i :: 0 <= i < |sent| ==> sent[i].out.payload == sent[i].source.payload
  }

  predicate Spliced(sent: seq<Sent>, step: nat) {
    && Numbered(sent) && Bridged(sent, step) && Spaced(sent) && Intact(sent)
    && (sent != [] ==> sent[0].out.ts == sent[0].source.ts)
  }

  /** The source packets sent for one activation, in order. */
  function SourcesOf(sent: seq<Sent>, a: nat): seq<Packet> {
    if sent == [] then []
    else
      var n := |sent| - 1;
      if sent[n].activation == a then SourcesOf(sent[..n], a) + [sent[n].source] else SourcesOf(sent[..n], a)
  }

  /** Everything from the first keyframe start on. */
  function FromKeyframe(pkts: seq<Packet>): seq<Packet> {
    if pkts == [] then []
    else
      var n := |pkts| - 1;
      var before := FromKeyframe(pkts[..n]);
      if before != [] || IsVP8Keyframe(pkts[n].payload) then before + [pkts[n]] else []
  }

  // ---------------------------------------------------------------------------
  // Any sequence of activations and packets
  // ---------------------------------------------------------------------------

  datatype Event = Activate | FromSource(kind: Kind, activation: nat, pkt: Packet)

  datatype Track = Track(lane: Lane, gates: seq<Gate>, sent: seq<Sent>)

  datatype State = State(video: Track, audio: Track, waiting: seq<bool>, videoIn: seq<seq<Packet>>, audioIn: seq<seq<Packet>>)

  const START: State := State(Track(Lane(0, 0, false), [], []), Track(Lane(0, 0, false), [], []), [], [], [])

  function Send(t: Track, a: nat, step: nat, pkt: Packet): Track
    requires a < |t.gates|
  {
    var out := Rewritten(t.lane, t.gates[a], step, pkt);
    Track(After(out), t.gates[a := Opened(t.lane, t.gates[a], step, pkt.ts)], t.sent + [Sent(a, pkt, out)])
  }

  predicate WellSized(s: State) {
    |s.video.gates| == |s.audio.gates| == |s.waiting| == |s.videoIn| == |s.audioIn|
  }

  function Apply(s: State, e: Event): (t: State)
    requires WellSized(s)
    ensures WellSized(t)
  {
    match e
    case Activate =>
      State(s.video.(gates := s.video.gates + [Gate(0, false)]), s.audio.(gates := s.audio.gates + [Gate(0, false)]),
            s.waiting + [true], s.videoIn + [[]], s.audioIn + [[]])
    case FromSource(kind, a, pkt) =>
      if a >= |s.waiting| then s
      else if kind == Audio then
        s.(audio := Send(s.audio, a, AUDIO_STEP, pkt), audioIn := s.audioIn[a := s.audioIn[a] + [pkt]])
      else
        var t := s.(videoIn := s.videoIn[a := s.videoIn[a] + [pkt]]);
        if s.waiting[a] && !IsVP8Keyframe(pkt.payload) then t
        else t.(video := Send(s.video, a, VIDEO_STEP, pkt), waiting := s.waiting[a := false])
  }

  function Play(events: seq<Event>): (s: State)
    ensures WellSized(s)
  {
    if events == [] then START else Apply(Play(events[..|events| - 1]), events[|events| - 1])
  }

  /** The viewer's counters and the closures' offsets, read off what was sent. */
  predicate TrackInv(t: Track) {
    && t.lane.seqNo == Wrap16(|t.sent|)
    && (t.lane.lastSet <==> t.sent != [])
    && (t.sent != [] ==> t.lane.lastTs == t.sent[|t.sent| - 1].out.ts)
    && (forall i :: 0 <= i < |t.sent| ==>
          && t.sent[i].activation < |t.gates|
          && t.gates[t.sent[i].activation].ready
          && t.sent[i].out.ts == Wrap32(t.sent[i].source.ts + t.gates[t.sent[i].activation].offset))
    && (forall a :: 0 <= a < |t.gates| && !t.gates[a].ready ==> t.gates[a].offset == 0)
    && (forall a :: 0 <= a < |t.gates| && t.gates[a].ready ==> Used(t.sent, a))
  }

  predicate Used(sent: seq<Sent>, a: nat) {
    exists i :: 0 <= i < |sent| && sent[i].activation == a
  }

  lemma UsedNext(sent: seq<Sent>, s: Sent, a: nat)
    ensures Used(sent + [s], a) <==> Used(sent, a) || s.activation == a
  {
    var all := sent + [s];
    if Used(sent, a) {
      var i :| 0 <= i < |sent| && sent[i].activation == a;
      assert all[i].activation == a;
    }
    if s.activation == a {
      assert all[|sent|].activation == a;
    }
  }

  lemma SeqNoNext(n: nat)
    ensures Wrap16(Wrap16(n) + 1) == Wrap16(n + 1)
  {
  }

  lemma BridgeTs(last: u32, step: nat, ts: u32)
    ensures Wrap32(ts + Wrap32(last + step - ts)) == Wrap32(last + step)
  {
    WrapAdd(last + step - ts, ts);
  }

  lemma SpacingTs(x: u32, y: u32, offset: u32)
    ensures Wrap32(Wrap32(x + offset) - Wrap32(y + offset)) == Wrap32(x - y)
  {
    WrapAdd(x + offset, 0 - Wrap32(y + offset));
    WrapSub(x + offset, y + offset);
  }

  lemma SendKeepsTrackInv(t: Track, a: nat, step: nat, pkt: Packet)
    requires TrackInv(t) && a < |t.gates|
    ensures TrackInv(Send(t, a, step, pkt))
  {
    SeqNoNext(|t.sent|);
    var u := Send(t, a, step, pkt);
    forall b | 0 <= b < |u.gates| && u.gates[b].ready
      ensures Used(u.sent, b)
    {
      UsedNext(t.sent, u.sent[|t.sent|], b);
    }
  }

  lemma SendKeepsNumbered(t: Track, a: nat, step: nat, pkt: Packet)
    requires TrackInv(t) && a < |t.gates| && Numbered(t.sent) && Intact(t.sent)
    ensures Numbered(Send(t, a, step, pkt).sent) && Intact(Send(t, a, step, pkt).sent)
  {
    SeqNoNext(|t.sent|);
  }

  predicate SpacedFrom(s: Sent, r: Sent) {
    Wrap32(r.out.ts - s.out.ts) == Wrap32(r.source.ts - s.source.ts)
  }

  lemma SpacedNext(sent: seq<Sent>, r: Sent)
    requires Spaced(sent)
    requires forall i :: 0 <= i < |sent| && sent[i].activation == r.activation ==> SpacedFrom(sent[i], r)
    ensures Spaced(sent + [r])
  {
    var all := sent + [r];
    forall i, j | 0 <= i < j < |all| && all[i].activation == all[j].activation
      ensures SpacedFrom(all[i], all[j])
    {
      if j < |sent| {
        assert all[i] == sent[i] && all[j] == sent[j];
      } else {
        assert all[i] == sent[i] && all[j] == r;
      }
    }
  }

  lemma SendKeepsSpaced(t: Track, a: nat, step: nat, pkt: Packet)
    requires TrackInv(t) && a < |t.gates| && Spaced(t.sent)
    ensures Spaced(Send(t, a, step, pkt).sent)
  {
    var r := Send(t, a, step, pkt).sent[|t.sent|];
    forall i | 0 <= i < |t.sent| && t.sent[i].activation == a
      ensures SpacedFrom(t.sent[i], r)
    {
      SpacingTs(pkt.ts, t.sent[i].source.ts, t.gates[a].offset);
    }
    SpacedNext(t.sent, r);
  }

  /** Being first of its activation only looks back. */
  lemma OpensEarlier(sent: seq<Sent>, s: Sent, i: nat)
    requires i < |sent|
    ensures OpensActivation(sent + [s], i) <==> OpensActivation(sent, i)
  {
    var all := sent + [s];
    assert forall j :: 0 <= j <= i ==> all[j] == sent[j];
  }

  lemma BridgedNext(sent: seq<Sent>, r: Sent, step: nat)
    requires Bridged(sent, step)
    requires sent != [] && !Used(sent, r.activation) ==> r.out.ts == Wrap32(sent[|sent| - 1].out.ts + step)
    ensures Bridged(sent + [r], step)
  {
    var all := sent + [r];
    forall i | 0 < i < |all| && OpensActivation(all, i)
      ensures all[i].out.ts == Wrap32(all[i - 1].out.ts + step)
    {
      if i < |sent| {
        OpensEarlier(sent, r, i);
      } else {
        OpenerIsUnused(sent, r);
      }
    }
  }

  lemma SendKeepsBridged(t: Track, a: nat, step: nat, pkt: Packet)
    requires TrackInv(t) && a < |t.gates| && Bridged(t.sent, step)
    ensures Bridged(Send(t, a, step, pkt).sent, step)
  {
    BridgeTs(t.lane.lastTs, step, pkt.ts);
    BridgedNext(t.sent, Sent(a, pkt, Rewritten(t.lane, t.gates[a], step, pkt)), step);
  }

  lemma OpenerIsUnused(sent: seq<Sent>, s: Sent)
    requires OpensActivation(sent + [s], |sent|)
    ensures !Used(sent, s.activation)
  {
    var all := sent + [s];
    assert forall i :: 0 <= i < |sent| ==> all[i] == sent[i];
  }

  lemma SendKeepsKeyframes(t: Track, a: nat, pkt: Packet)
    requires TrackInv(t) && a < |t.gates| && StartsOnKeyframes(t.sent)
    requires !t.gates[a].ready ==> IsVP8Keyframe(pkt.payload)
    ensures StartsOnKeyframes(Send(t, a, VIDEO_STEP, pkt).sent)
  {
    var u := Send(t, a, VIDEO_STEP, pkt);
    var n := |t.sent|;
    forall i | 0 <= i < |u.sent| && OpensActivation(u.sent, i)
      ensures IsVP8Keyframe(u.sent[i].source.payload)
    {
      if i < n {
        OpensEarlier(t.sent, u.sent[n], i);
      } else {
        OpenerIsUnused(t.sent, u.sent[n]);
      }
    }
  }

  lemma SendKeepsSpliced(t: Track, a: nat, step: nat, pkt: Packet)
    requires TrackInv(t) && a < |t.gates| && Spliced(t.sent, step)
    ensures var u := Send(t, a, step, pkt); TrackInv(u) && Spliced(u.sent, step)
  {
    SendKeepsTrackInv(t, a, step, pkt);
    SendKeepsNumbered(t, a, step, pkt);
    SendKeepsSpaced(t, a, step, pkt);
    SendKeepsBridged(t, a, step, pkt);
  }

  lemma NewGateKeepsTrackInv(t: Track)
    requires TrackInv(t)
    ensures TrackInv(t.(gates := t.gates + [Gate(0, false)]))
  {
  }

  predicate SplicedInv(s: State) {
    && WellSized(s) && TrackInv(s.video) && TrackInv(s.audio)
    && Spliced(s.video.sent, VIDEO_STEP) && Spliced(s.audio.sent, AUDIO_STEP)
    && StartsOnKeyframes(s.video.sent)
    && (forall a :: 0 <= a < |s.waiting| && !s.video.gates[a].ready ==> s.waiting[a])
  }

  lemma ApplyKeeps(s: State, e: Event)
    requires SplicedInv(s)
    ensures SplicedInv(Apply(s, e))
  {
    match e
    case Activate =>
      NewGateKeepsTrackInv(s.video);
      NewGateKeepsTrackInv(s.audio);
    case FromSource(kind, a, pkt) =>
      if a < |s.waiting| {
        if kind == Audio {
          SendKeepsSpliced(s.audio, a, AUDIO_STEP, pkt);
        } else if !s.waiting[a] || IsVP8Keyframe(pkt.payload) {
          SendKeepsSpliced(s.video, a, VIDEO_STEP, pkt);
          SendKeepsKeyframes(s.video, a, pkt);
        }
      }
  }

  /** Over any sequence of activations and packets, each kind's sequence numbers
      are 1, 2, 3, ... modulo 2^16 without a gap, timestamps keep the source's
      spacing within an activation and resume one frame after the last packet at the
      next, payloads are untouched, and the first video packet of every activation
      starts a keyframe. */
  lemma {:induction false} ViewerSeesOneTimeline(events: seq<Event>)
    ensures SplicedInv(Play(events))
    ensures var s := Play(events);
            && Spliced(s.video.sent, 3000) && Spliced(s.audio.sent, 960)
            && StartsOnKeyframes(s.video.sent)
  {
    if events != [] {
      ViewerSeesOneTimeline(events[..|events| - 1]);
      ApplyKeeps(Play(events[..|events| - 1]), events[|events| - 1]);
    }
  }

  // ---------------------------------------------------------------------------
  // Nothing else is dropped
  // ---------------------------------------------------------------------------

  predicate ForwardedInv(sent: seq<Sent>, wanted: seq<seq<Packet>>) {
    && (forall i :: 0 <= i < |sent| ==> sent[i].activation < |wanted|)
    && (forall a :: 0 <= a < |wanted| ==> SourcesOf(sent, a) == wanted[a])
  }

  lemma SourcesNext(sent: seq<Sent>, s: Sent, a: nat)
    ensures SourcesOf(sent + [s], a) == SourcesOf(sent, a) + if s.activation == a then [s.source] else []
  {
    assert (sent + [s])[..|sent|] == sent;
  }

  lemma {:induction false} SourcesOfUnused(sent: seq<Sent>, a: nat)
    requires forall i :: 0 <= i < |sent| ==> sent[i].activation != a
    ensures SourcesOf(sent, a) == []
  {
    if sent != [] {
      SourcesOfUnused(sent[..|sent| - 1], a);
    }
  }

  lemma ForwardKeeps(sent: seq<Sent>, wanted: seq<seq<Packet>>, s: Sent)
    requires ForwardedInv(sent, wanted) && s.activation < |wanted|
    ensures ForwardedInv(sent + [s], wanted[s.activation := wanted[s.activation] + [s.source]])
  {
    forall a | 0 <= a < |wanted|
      ensures SourcesOf(sent + [s], a) == SourcesOf(sent, a) + if s.activation == a then [s.source] else []
    {
      SourcesNext(sent, s, a);
    }
  }

  lemma NewActivationForwards(sent: seq<Sent>, wanted: seq<seq<Packet>>)
    requires ForwardedInv(sent, wanted)
    ensures ForwardedInv(sent, wanted + [[]])
  {
    SourcesOfUnused(sent, |wanted|);
  }

  lemma FromKeyframeNext(pkts: seq<Packet>, p: Packet)
    ensures FromKeyframe(pkts + [p]) ==
            if FromKeyframe(pkts) != [] || IsVP8Keyframe(p.payload) then FromKeyframe(pkts) + [p] else []
  {
    assert (pkts + [p])[..|pkts|] == pkts;
  }

  /** What each activation should have had forwarded. */
  function Wanted(ins: seq<seq<Packet>>): seq<seq<Packet>> {
    seq(|ins|, a requires 0 <= a < |ins| => FromKeyframe(ins[a]))
  }

  predicate CompleteInv(s: State) {
    && WellSized(s)
    && ForwardedInv(s.video.sent, Wanted(s.videoIn))
    && ForwardedInv(s.audio.sent, s.audioIn)
    && (forall a :: 0 <= a < |s.waiting| ==> (s.waiting[a] <==> FromKeyframe(s.videoIn[a]) == []))
  }

  lemma VideoKeepsComplete(s: State, a: nat, pkt: Packet)
    requires CompleteInv(s) && a < |s.waiting|
    ensures CompleteInv(Apply(s, FromSource(Video, a, pkt)))
  {
    var t := Apply(s, FromSource(Video, a, pkt));
    var w := Wanted(s.videoIn);
    FromKeyframeNext(s.videoIn[a], pkt);
    if s.waiting[a] && !IsVP8Keyframe(pkt.payload) {
      assert Wanted(t.videoIn) == w;
    } else {
      ForwardKeeps(s.video.sent, w, t.video.sent[|s.video.sent|]);
      assert Wanted(t.videoIn) == w[a := w[a] + [pkt]];
    }
  }

  lemma ApplyKeepsComplete(s: State, e: Event)
    requires CompleteInv(s)
    ensures CompleteInv(Apply(s, e))
  {
    match e
    case Activate =>
      NewActivationForwards(s.video.sent, Wanted(s.videoIn));
      NewActivationForwards(s.audio.sent, s.audioIn);
      assert Wanted(s.videoIn + [[]]) == Wanted(s.videoIn) + [[]];
    case FromSource(kind, a, pkt) =>
      if a < |s.waiting| {
        if kind == Audio {
          ForwardKeeps(s.audio.sent, s.audioIn, Apply(s, e).audio.sent[|s.audio.sent|]);
        } else {
          VideoKeepsComplete(s, a, pkt);
        }
      }
  }

  /** Per activation, every audio packet is forwarded once and in order, and so is
      every video packet from the activation's first keyframe start on. */
  lemma {:induction false} OnlyLeadInIsDropped(events: seq<Event>)
    ensures CompleteInv(Play(events))
    ensures var s := Play(events);
            forall a :: 0 <= a < |s.waiting| ==>
              && SourcesOf(s.video.sent, a) == FromKeyframe(s.videoIn[a])
              && SourcesOf(s.audio.sent, a) == s.audioIn[a]
  {
    if events != [] {
      OnlyLeadInIsDropped(events[..|events| - 1]);
      ApplyKeepsComplete(Play(events[..|events| - 1]), events[|events| - 1]);
    }
    var s := Play(events);
    assert forall a :: 0 <= a < |s.waiting| ==> Wanted(s.videoIn)[a] == FromKeyframe(s.videoIn[a]);
  }
}
