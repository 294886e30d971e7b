// What each critical section of WebMRecorder does to the fields guarded by its
// mutex. The class in WebMRecorder.dfy implements these functions; the
// interleaving model in RecorderMachine.dfy steps with them.
module RecorderCore {
  import opened Media
  import opened TrackClock

  const QUEUE_SIZE := 1024
  const WRITE_ERROR_THRESHOLD := 10

  datatype RecordingState = Recording | Paused | Finished | Failed

  /** What the VP8 depacketizer makes of an RTP payload. */
  datatype Depacketized = Malformed | Vp8(start: bool, pid: nat, body: seq<byte>)

  /** One queued packet. `clock` is the sender's clock before it was reduced to
      32 bits; the recorder only ever reads `Ts()`. */
  datatype Item =
    | VideoItem(clock: nat, marker: bool, unit: Depacketized)
    | AudioItem(clock: nat, payload: seq<byte>)
  {
    function Ts(): u32 {
      Wrap32(clock)
    }

    /** First packet of a frame: S set in partition 0. */
    predicate StartsFrame() {
      VideoItem? && unit.Vp8? && unit.start && unit.pid == 0
    }
  }

  datatype Block = Block(key: bool, ms: int, frame: seq<byte>)

  /** The state machine and the queue. */
  datatype Gate = Gate(
    async: bool,
    state: RecordingState,
    closed: bool,
    intake: bool,     // the queue field is not nil
    tracks: bool,     // the track writers are not nil
    chan: seq<Item>,  // buffered in the channel
    dropped: nat,
    streak: nat)      // consecutive block-write failures

  /** VP8 assembly, the video clock, and the blocks handed to the track writer. */
  datatype VideoTrack = VideoTrack(
    buf: seq<byte>, keyAhead: bool, wroteKey: bool, lastMs: int, clock: Clock, out: seq<Block>)

  datatype AudioTrack = AudioTrack(clock: Clock, out: seq<Block>)

  datatype Rec = Rec(gate: Gate, video: VideoTrack, audio: AudioTrack)

  function NewRec(async: bool): Rec {
    Rec(Gate(async, Recording, false, async, true, [], 0, 0),
        VideoTrack([], false, false, 0, FRESH, []),
        AudioTrack(FRESH, []))
  }

  predicate KeyByte(body: seq<byte>) {
    |body| > 0 && body[0] % 2 == 0
  }

  function Look(r: Rec, item: Item): Rec {
    if item.VideoItem?
    then r.(video := r.video.(clock := See(r.video.clock, item.Ts())))
    else r.(audio := r.audio.(clock := See(r.audio.clock, item.Ts())))
  }

  /** A non-blocking send: a full queue drops the packet. */
  function Enqueue(g: Gate, item: Item): Gate {
    if g.intake && |g.chan| < QUEUE_SIZE then g.(chan := g.chan + [item]) else g.(dropped := g.dropped + 1)
  }

  function Offer(r: Rec, item: Item): Rec {
    if r.gate.closed then r
    else if r.gate.state != Recording then Look(r, item)
    else Look(r, item).(gate := Enqueue(r.gate, item))
  }

  /** Frame assembly up to the marker test. */
  function Assemble(v: VideoTrack, ts: u32, unit: Depacketized): VideoTrack
    requires unit.Vp8?
  {
    var v1 := v.(clock := Begin(v.clock, ts));
    if unit.start && unit.pid == 0
    then v1.(buf := unit.body, keyAhead := if |unit.body| > 0 then KeyByte(unit.body) else v1.keyAhead)
    else v1.(buf := v1.buf + unit.body)
  }

  /** A complete frame: the keyframe gate, the time stamp, the block. */
  function Emit(v: VideoTrack, open: bool, ts: u32): VideoTrack {
    if !v.wroteKey && !v.keyAhead then v.(buf := [])
    else
      var based := if v.wroteKey then v.clock else Rebase(v.clock, ts);
      var ms := VideoMs(Position(based, ts));
      VideoTrack([], v.keyAhead, true, ms, Stamp(based, ts),
                 if open then v.out + [Block(v.keyAhead, ms, v.buf)] else v.out)
  }

  function HandleVideo(v: VideoTrack, open: bool, item: Item): VideoTrack
    requires item.VideoItem?
  {
    if item.unit.Malformed? then v
    else
      var v1 := Assemble(v, item.Ts(), item.unit);
      if item.marker then Emit(v1, open, item.Ts()) else v1
  }

  function HandleAudio(a: AudioTrack, open: bool, item: Item): AudioTrack
    requires item.AudioItem?
  {
    var c := Begin(a.clock, item.Ts());
    var ms := AudioMs(Position(c, item.Ts()));
    AudioTrack(Stamp(c, item.Ts()), if open then a.out + [Block(true, ms, item.payload)] else a.out)
  }

  function Handle(r: Rec, item: Item): Rec {
    if item.VideoItem?
    then r.(video := HandleVideo(r.video, r.gate.tracks, item))
    else r.(audio := HandleAudio(r.audio, r.gate.tracks, item))
  }

  function Blocks(r: Rec): nat {
    |r.video.out| + |r.audio.out|
  }

  function Note(g: Gate, ok: bool): Gate {
    g.(streak := if ok then 0 else g.streak + 1)
  }

  predicate Tripped(g: Gate, ok: bool) {
    !ok && g.async && g.streak >= WRITE_ERROR_THRESHOLD
  }

  /** markFailed's critical section: a no-op once anyone has closed. */
  function Fail(g: Gate): Gate {
    if g.closed then g
    else g.(closed := true, state := Failed, intake := false, tracks := false)
  }

  /** Finalise's first critical section: intake stops, the tracks stay open. */
  function StopIntake(g: Gate): Gate {
    if g.closed then g
    else g.(closed := true, state := Finished, intake := false)
  }

  /** Finalise's second critical section. */
  function DropTracks(g: Gate): Gate {
    g.(tracks := false)
  }

  function Pause(r: Rec): Rec {
    if r.gate.state != Recording then r
    else Rec(r.gate.(state := Paused),
             r.video.(clock := Hold(r.video.clock)),
             r.audio.(clock := Hold(r.audio.clock)))
  }

  function Resume(r: Rec): Rec {
    if r.gate.state != Paused then r
    else Rec(r.gate.(state := Recording),
             r.video.(clock := Release(r.video.clock)),
             r.audio.(clock := Release(r.audio.clock)))
  }

  /** Noting one write outcome, failing at the threshold. */
  function Settle(g: Gate, ok: bool): Gate {
    var n := Note(g, ok);
    if Tripped(n, ok) then Fail(n) else n
  }

  /** One packet through the writer with nothing else running: assemble, write
      with outcome `ok`, settle. */
  function Process(r: Rec, item: Item, ok: bool): Rec {
    var h := Handle(r, item);
    if Blocks(h) == Blocks(r) then h else h.(gate := Settle(h.gate, ok))
  }

  /** The inline recorder goes on to process the packet, its mutex released. */
  predicate GoesInline(r: Rec) {
    !r.gate.async && !r.gate.closed && r.gate.state == Recording
  }

  /** The fan-out callback's critical section. */
  function Accept(r: Rec, item: Item): Rec {
    if r.gate.async then Offer(r, item) else if r.gate.closed then r else Look(r, item)
  }

  function OnPacket(r: Rec, item: Item, ok: bool): Rec {
    if GoesInline(r) then Process(Accept(r, item), item, ok) else Accept(r, item)
  }

  /** The receive half of the writer loop. */
  function Taken(r: Rec): Rec
    requires r.gate.chan != []
  {
    r.(gate := r.gate.(chan := r.gate.chan[1..]))
  }

  /** One turn of the writer loop; `disk(n)` is the outcome of the n-th block
      write. */
  function WriterTurn(r: Rec, disk: nat -> bool): Rec
    requires r.gate.chan != []
  {
    Process(Taken(r), r.gate.chan[0], disk(Blocks(r)))
  }

  /** The writer loop run to the end of a closed queue. */
  function Drain(r: Rec, disk: nat -> bool): Rec
    decreases |r.gate.chan|
  {
    if r.gate.chan == [] then r else Drain(WriterTurn(r, disk), disk)
  }

  /** As many turns as the drain timeout lets through. */
  function DrainUpTo(r: Rec, disk: nat -> bool, turns: nat): Rec
    decreases turns
  {
    if r.gate.chan == [] || turns == 0 then r else DrainUpTo(WriterTurn(r, disk), disk, turns - 1)
  }

  function Finalise(r: Rec, disk: nat -> bool, turns: nat): Rec {
    if r.gate.closed then r
    else
      var d := DrainUpTo(r.(gate := StopIntake(r.gate)), disk, turns);
      d.(gate := DropTracks(d.gate))
  }

  lemma TurnShortens(r: Rec, disk: nat -> bool)
    requires r.gate.chan != []
    ensures WriterTurn(r, disk).gate.chan == r.gate.chan[1..]
  {
  }

  /** A drain that does not time out is the writer loop run to its end. */
  lemma {:induction false} WholeDrain(r: Rec, disk: nat -> bool, turns: nat)
    requires |r.gate.chan| <= turns
    ensures DrainUpTo(r, disk, turns) == Drain(r, disk) && Drain(r, disk).gate.chan == []
    decreases turns
  {
    if r.gate.chan != [] {
      TurnShortens(r, disk);
      WholeDrain(WriterTurn(r, disk), disk, turns - 1);
    }
  }
}
