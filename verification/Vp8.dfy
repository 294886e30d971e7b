// The VP8 RTP payload descriptor of section 4.2 of RFC 7741: the parser of
// vp8util.go, an encoder for every descriptor, and the round trip between them.
module Vp8 {
  import opened Media
  import RecorderCore

  // ---------------------------------------------------------------------------
  // The parser
  // ---------------------------------------------------------------------------

  /** Bit `n` of an octet, counted from the least significant. */
  predicate Bit(b: byte, n: nat)
    requires n < 8
  {
    b / [1, 2, 4, 8, 16, 32, 64, 128][n] % 2 == 1
  }

  predicate IsVP8StartOfPartition(payload: seq<byte>) {
    |payload| >= 1 && Bit(payload[0], 4)
  }

  /** How far the parser's index gets past the extension octet `ext` at `at - 1`. */
  function AfterExtension(payload: seq<byte>, ext: byte, at: nat): nat {
    var a := if Bit(ext, 7) && at < |payload| then (if Bit(payload[at], 7) then at + 2 else at + 1) else at;
    var b := if Bit(ext, 6) then a + 1 else a;
    if Bit(ext, 5) || Bit(ext, 4) then b + 1 else b
  }

  function HeaderLength(payload: seq<byte>): nat
    requires payload != []
  {
    if Bit(payload[0], 7) && |payload| > 1 then AfterExtension(payload, payload[1], 2) else 1
  }

  function Extract(payload: seq<byte>): Option<seq<byte>> {
    if payload == [] || HeaderLength(payload) >= |payload| then None
    else Some(payload[HeaderLength(payload)..])
  }

  method ExtractVP8Payload(payload: seq<byte>) returns (data: Option<seq<byte>>)
    ensures data == Extract(payload)
  {
    if |payload| < 1 {
      return None;
    }
    var idx := 0;
    var firstByte := payload[idx];
    idx := idx + 1;
    if Bit(firstByte, 7) && idx < |payload| {
      var extByte := payload[idx];
      idx := idx + 1;
      if Bit(extByte, 7) {
        if idx < |payload| {
          if Bit(payload[idx], 7) {
            idx := idx + 2;
          } else {
            idx := idx + 1;
          }
        }
      }
      if Bit(extByte, 6) {
        idx := idx + 1;
      }
      if Bit(extByte, 5) || Bit(extByte, 4) {
        idx := idx + 1;
      }
    }
    if idx >= |payload| {
      return None;
    }
    return Some(payload[idx..]);
  }

  predicate IsVP8Keyframe(payload: seq<byte>) {
    && IsVP8StartOfPartition(payload)
    && Extract(payload).Some?
    && !Bit(Extract(payload).value[0], 0)
  }

  /** The bits are those of the binary numeral. */
  lemma BitsOf(b: byte)
    ensures (Bit(b, 0) <==> b % 2 == 1) && (Bit(b, 1) <==> b / 2 % 2 == 1)
    ensures (Bit(b, 2) <==> b / 4 % 2 == 1) && (Bit(b, 3) <==> b / 8 % 2 == 1)
    ensures (Bit(b, 4) <==> b / 16 % 2 == 1) && (Bit(b, 5) <==> b / 32 % 2 == 1)
    ensures (Bit(b, 6) <==> b / 64 % 2 == 1) && (Bit(b, 7) <==> b / 128 % 2 == 1)
  {
  }

  /** S is the fifth bit from the right of the first octet, if there is one. */
  lemma StartOfPartitionIff(payload: seq<byte>)
    ensures IsVP8StartOfPartition(payload) <==> payload != [] && payload[0] / 16 % 2 == 1
  {
  }

  /** On any bytes: nothing, or a non-empty proper suffix; one octet is never
      enough. */
  lemma ExtractIsProperSuffix(payload: seq<byte>)
    ensures var r := Extract(payload);
            && (r.Some? ==> 0 < |r.value| < |payload| && payload[|payload| - |r.value|..] == r.value)
            && (|payload| <= 1 ==> r.None?)
  {
    if payload != [] && HeaderLength(payload) < |payload| {
      var n := HeaderLength(payload);
      assert |payload| - |payload[n..]| == n;
    }
  }

  // ---------------------------------------------------------------------------
  // The format
  // ---------------------------------------------------------------------------

  datatype PictureId = NoPicture | Short(id: nat) | Long(hi: nat, lo: byte)

  /** T and K share one octet. */
  datatype LayerOctet = NoLayer | Layer(t: bool, k: bool, octet: byte)

  datatype Extension = Extension(picture: PictureId, tl0: Option<byte>, layer: LayerOctet, reserved: nat)

  datatype Descriptor = Descriptor(
    ext: Option<Extension>, reserved6: bool, nonRef: bool, start: bool, reserved3: bool, pid: nat)

  predicate ValidExtension(e: Extension) {
    && (e.picture.Short? ==> e.picture.id < 0x80)
    && (e.picture.Long? ==> e.picture.hi < 0x80)
    && (e.layer.Layer? ==> e.layer.t || e.layer.k)
    && e.reserved < 0x10
  }

  predicate Valid(d: Descriptor) {
    d.pid < 8 && (d.ext.Some? ==> ValidExtension(d.ext.value))
  }

  function Flag(b: bool, weight: nat): nat {
    if b then weight else 0
  }

  function FirstOctet(d: Descriptor): byte
    requires Valid(d)
  {
    Flag(d.ext.Some?, 128) + Flag(d.reserved6, 64) + Flag(d.nonRef, 32) + Flag(d.start, 16)
    + Flag(d.reserved3, 8) + d.pid
  }

  function ExtensionOctet(e: Extension): byte
    requires ValidExtension(e)
  {
    Flag(!e.picture.NoPicture?, 128) + Flag(e.tl0.Some?, 64)
    + Flag(e.layer.Layer? && e.layer.t, 32) + Flag(e.layer.Layer? && e.layer.k, 16) + e.reserved
  }

  function EncodePicture(p: PictureId): seq<byte>
    requires (p.Short? ==> p.id < 0x80) && (p.Long? ==> p.hi < 0x80)
  {
    match p
    case NoPicture => []
    case Short(id) => [id]
    case Long(hi, lo) => [0x80 + hi, lo]
  }

  function EncodeExtension(e: Extension): seq<byte>
    requires ValidExtension(e)
  {
    [ExtensionOctet(e)] + EncodePicture(e.picture)
    + (if e.tl0.Some? then [e.tl0.value] else [])
    + (if e.layer.Layer? then [e.layer.octet] else [])
  }

  function Encode(d: Descriptor): seq<byte>
    requires Valid(d)
  {
    [FirstOctet(d)] + if d.ext.Some? then EncodeExtension(d.ext.value) else []
  }

  lemma FirstOctetBits(d: Descriptor)
    requires Valid(d)
    ensures Bit(FirstOctet(d), 7) == d.ext.Some? && Bit(FirstOctet(d), 4) == d.start
  {
  }

  lemma ExtensionOctetBits(e: Extension)
    requires ValidExtension(e)
    ensures Bit(ExtensionOctet(e), 7) == !e.picture.NoPicture?
    ensures Bit(ExtensionOctet(e), 6) == e.tl0.Some?
    ensures (Bit(ExtensionOctet(e), 5) || Bit(ExtensionOctet(e), 4)) == e.layer.Layer?
  {
  }

  lemma ExtensionLength(e: Extension, first: byte, payload: seq<byte>)
    requires ValidExtension(e)
    ensures var all := [first] + EncodeExtension(e) + payload;
            AfterExtension(all, ExtensionOctet(e), 2) == 1 + |EncodeExtension(e)|
  {
    ExtensionOctetBits(e);
    var all := [first] + EncodeExtension(e) + payload;
    if e.picture.Short? {
      assert all[2] == e.picture.id;
    } else if e.picture.Long? {
      assert all[2] == 0x80 + e.picture.hi;
    }
  }

  /** Every descriptor in front of a non-empty payload is stripped exactly. */
  lemma ExtractInvertsEncode(d: Descriptor, payload: seq<byte>)
    requires Valid(d) && payload != []
    ensures Extract(Encode(d) + payload) == Some(payload)
  {
    FirstOctetBits(d);
    var all := Encode(d) + payload;
    if d.ext.Some? {
      var e := d.ext.value;
      assert all == [FirstOctet(d)] + EncodeExtension(e) + payload;
      assert all[1] == ExtensionOctet(e);
      ExtensionLength(e, FirstOctet(d), payload);
    }
    assert HeaderLength(all) == |Encode(d)|;
    assert all[|Encode(d)|..] == payload;
  }

  /** An encoded packet is taken for the start of a keyframe exactly when S is set
      and the P bit of the payload is clear. */
  lemma KeyframeIff(d: Descriptor, payload: seq<byte>)
    requires Valid(d) && payload != []
    ensures IsVP8Keyframe(Encode(d) + payload) <==> d.start && payload[0] % 2 == 0
  {
    ExtractInvertsEncode(d, payload);
    FirstOctetBits(d);
    assert (Encode(d) + payload)[0] == FirstOctet(d);
  }

  /** The recorder starts a frame only in partition 0. The viewer's test agrees
      with it except on a keyframe-looking start of a later partition. */
  lemma AgreesWithRecorderIff(d: Descriptor, payload: seq<byte>, clock: nat, marker: bool)
    requires Valid(d) && payload != []
    ensures var item := RecorderCore.VideoItem(clock, marker, RecorderCore.Vp8(d.start, d.pid, payload));
            (IsVP8Keyframe(Encode(d) + payload) <==> item.StartsFrame() && RecorderCore.KeyByte(payload))
            <==> d.pid == 0 || !d.start || !RecorderCore.KeyByte(payload)
  {
    KeyframeIff(d, payload);
  }
}
