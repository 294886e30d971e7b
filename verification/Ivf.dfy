// IVF: the header and frame readers of source_file.go, a serialiser, and the round
// trip between them, whole or cut short.
module Ivf {
  import opened Media

  // ---------------------------------------------------------------------------
  // Little-endian numbers
  // ---------------------------------------------------------------------------

  function Pow256(k: nat): nat {
    if k == 0 then 1 else 256 * Pow256(k - 1)
  }

  function LittleEndian(n: nat, k: nat): seq<byte> {
    if k == 0 then [] else [n % 256] + LittleEndian(n / 256, k - 1)
  }

  function FromLittleEndian(s: seq<byte>): nat {
    if s == [] then 0 else s[0] + 256 * FromLittleEndian(s[1..])
  }

  lemma {:induction false} LittleEndianRoundTrip(n: nat, k: nat)
    requires n < Pow256(k)
    ensures |LittleEndian(n, k)| == k && FromLittleEndian(LittleEndian(n, k)) == n
  {
    if k > 0 {
      LittleEndianRoundTrip(n / 256, k - 1);
      assert LittleEndian(n, k)[1..] == LittleEndian(n / 256, k - 1);
    }
  }

  lemma WordSizes()
    ensures Pow256(2) == TWO16 && Pow256(4) == TWO32 && Pow256(8) == TWO32 * TWO32
  {
    assert Pow256(3) == 256 * Pow256(2);
    assert Pow256(4) == 256 * Pow256(3);
    assert Pow256(5) == 256 * Pow256(4);
    assert Pow256(6) == 256 * Pow256(5);
    assert Pow256(7) == 256 * Pow256(6);
  }

  // ---------------------------------------------------------------------------
  // What the readers compute
  // ---------------------------------------------------------------------------

  const DKIF: seq<byte> := [0x44, 0x4B, 0x49, 0x46]
  const VP80: seq<byte> := [0x56, 0x50, 0x38, 0x30]

  datatype Header = Header(width: nat, height: nat, den: nat, num: nat, frames: nat)

  datatype Frame = Frame(pts: nat, data: seq<byte>)

  datatype HeaderResult = HeaderOk(header: Header) | ShortHeader | BadSignature | BadCodec

  function ParseHeader(b: seq<byte>): HeaderResult {
    if |b| < 32 then ShortHeader
    else if b[0..4] != DKIF then BadSignature
    else if b[8..12] != VP80 then BadCodec
    else HeaderOk(Header(
        FromLittleEndian(b[12..14]), FromLittleEndian(b[14..16]),
        FromLittleEndian(b[16..20]), FromLittleEndian(b[20..24]), FromLittleEndian(b[24..28])))
  }

  function FrameSize(b: seq<byte>): nat
    requires |b| >= 12
  {
    FromLittleEndian(b[0..4])
  }

  /** A whole frame is at the front of `b`. */
  predicate HasFrame(b: seq<byte>) {
    |b| >= 12 && |b| - 12 >= FrameSize(b)
  }

  function FirstFrame(b: seq<byte>): Frame
    requires HasFrame(b)
  {
    Frame(FromLittleEndian(b[4..12]), b[12..12 + FrameSize(b)])
  }

  /** The frames read until the end of file, expected or not. */
  function Frames(b: seq<byte>): seq<Frame>
    decreases |b|
  {
    if HasFrame(b) then [FirstFrame(b)] + Frames(b[12 + FrameSize(b)..]) else []
  }

  /** 32 octets are a header exactly when they say DKIF and, eight octets in, VP80;
      the first thing wrong is the error. */
  lemma HeaderAcceptedIff(b: seq<byte>)
    ensures var r := ParseHeader(b);
            && (r.HeaderOk? <==>
                  && |b| >= 32
                  && b[0] == 0x44 && b[1] == 0x4B && b[2] == 0x49 && b[3] == 0x46
                  && b[8] == 0x56 && b[9] == 0x50 && b[10] == 0x38 && b[11] == 0x30)
            && (r.ShortHeader? <==> |b| < 32)
            && (r.BadSignature? <==>
                  |b| >= 32 && !(b[0] == 0x44 && b[1] == 0x4B && b[2] == 0x49 && b[3] == 0x46))
  {
    if |b| >= 32 {
      var name, codec := b[0..4], b[8..12];
      assert name[0] == b[0] && name[1] == b[1] && name[2] == b[2] && name[3] == b[3];
      assert codec[0] == b[8] && codec[1] == b[9] && codec[2] == b[10] && codec[3] == b[11];
      assert name == [b[0], b[1], b[2], b[3]] && codec == [b[8], b[9], b[10], b[11]];
    }
  }

  // ---------------------------------------------------------------------------
  // The readers
  // ---------------------------------------------------------------------------

  datatype ReadResult = Bytes(bytes: seq<byte>) | Eof | UnexpectedEof

  datatype FrameResult = FrameOk(frame: Frame) | FrameEof

  class Reader {
    var left: seq<byte>

    constructor (data: seq<byte>)
      ensures left == data
    {
      left := data;
    }

    /** io.ReadFull: all `n` bytes, or what is left is consumed and lost. */
    method ReadFull(n: nat) returns (r: ReadResult)
      modifies this
      ensures r.Bytes? <==> n <= |old(left)|
      ensures r.Bytes? ==> r.bytes == old(left)[..n] && left == old(left)[n..]
      ensures !r.Bytes? ==> left == [] && (r.Eof? <==> old(left) == [])
    {
      if n <= |left| {
        r := Bytes(left[..n]);
        left := left[n..];
      } else {
        r := if left == [] then Eof else UnexpectedEof;
        left := [];
      }
    }

    method ParseIVFHeader() returns (r: HeaderResult)
      modifies this
      ensures r == ParseHeader(old(left))
      ensures !r.ShortHeader? ==> left == old(left)[32..]
    {
      var read := ReadFull(32);
      if !read.Bytes? {
        return ShortHeader;
      }
      var buf := read.bytes;
      ghost var all := old(left);
      assert forall i, j :: 0 <= i <= j <= 32 ==> buf[i..j] == all[i..j];
      if buf[0..4] != DKIF {
        return BadSignature;
      }
      if buf[8..12] != VP80 {
        return BadCodec;
      }
      r := HeaderOk(Header(
        FromLittleEndian(buf[12..14]), FromLittleEndian(buf[14..16]),
        FromLittleEndian(buf[16..20]), FromLittleEndian(buf[20..24]), FromLittleEndian(buf[24..28])));
    }

    method ReadIVFFrame() returns (r: FrameResult)
      modifies this
      ensures r.FrameOk? <==> HasFrame(old(left))
      ensures r.FrameOk? ==>
                r.frame == FirstFrame(old(left)) && left == old(left)[12 + FrameSize(old(left))..]
    {
      var hdr := ReadFull(12);
      if !hdr.Bytes? {
        return FrameEof;
      }
      ghost var all := old(left);
      assert hdr.bytes[0..4] == all[0..4] && hdr.bytes[4..12] == all[4..12];
      var size := FromLittleEndian(hdr.bytes[0..4]);
      var pts := FromLittleEndian(hdr.bytes[4..12]);
      var frame := ReadFull(size);
      if !frame.Bytes? {
        return FrameEof;
      }
      assert all[12..][..size] == all[12..12 + size] && all[12..][size..] == all[12 + size..];
      r := FrameOk(Frame(pts, frame.bytes));
    }

    /** playOnce's read loop: frames until end of file, or until the stop signal is
        found before the next one. */
    method PlayOnce(stopped: nat -> bool) returns (frames: seq<Frame>)
      modifies this
      ensures frames <= Frames(old(left))
      ensures forall i :: 0 <= i < |frames| ==> !stopped(i)
      ensures frames == Frames(old(left)) || stopped(|frames|)
    {
      frames := [];
      while !stopped(|frames|)
        invariant frames + Frames(left) == Frames(old(left))
        invariant forall i :: 0 <= i < |frames| ==> !stopped(i)
        decreases |left|
      {
        var r := ReadIVFFrame();
        if r.FrameEof? {
          return;
        }
        frames := frames + [r.frame];
      }
    }
  }

  // ---------------------------------------------------------------------------
  // The serialiser and the round trip
  // ---------------------------------------------------------------------------

  predicate ValidHeader(h: Header) {
    h.width < TWO16 && h.height < TWO16 && h.den < TWO32 && h.num < TWO32 && h.frames < TWO32
  }

  predicate ValidFrame(f: Frame) {
    |f.data| < TWO32 && f.pts < TWO32 * TWO32
  }

  function Numbers(h: Header): seq<byte> {
    LittleEndian(h.width, 2) + LittleEndian(h.height, 2)
    + LittleEndian(h.den, 4) + LittleEndian(h.num, 4) + LittleEndian(h.frames, 4)
  }

  /** `version` and `unused` are the octets the reader ignores. */
  function WriteHeader(h: Header, version: seq<byte>, unused: seq<byte>): seq<byte> {
    DKIF + version + VP80 + Numbers(h) + unused
  }

  function WriteFrame(f: Frame): seq<byte> {
    LittleEndian(|f.data|, 4) + LittleEndian(f.pts, 8) + f.data
  }

  function WriteFrames(fs: seq<Frame>): seq<byte> {
    if fs == [] then [] else WriteFrame(fs[0]) + WriteFrames(fs[1..])
  }

  lemma Regroup(a: seq<byte>, b: seq<byte>, c: seq<byte>, d: seq<byte>)
    ensures a + b + c + d == a + (b + (c + d))
  {
  }

  lemma NameSlices(version: seq<byte>, rest: seq<byte>)
    requires |version| == 4
    ensures var b := DKIF + version + VP80 + rest; b[0..4] == DKIF && b[8..12] == VP80
  {
  }

  lemma NumberSlices(name: seq<byte>, w: seq<byte>, h: seq<byte>, d: seq<byte>, n: seq<byte>, f: seq<byte>,
                     rest: seq<byte>)
    requires |name| == 12 && |w| == 2 && |h| == 2 && |d| == 4 && |n| == 4 && |f| == 4
    ensures var b := name + (w + h + d + n + f + rest);
            && b[12..14] == w && b[14..16] == h
            && b[16..20] == d && b[20..24] == n && b[24..28] == f
  {
  }

  /** Reading a header back, whatever follows it. */
  lemma HeaderRoundTrip(h: Header, version: seq<byte>, unused: seq<byte>, rest: seq<byte>)
    requires ValidHeader(h) && |version| == 4 && |unused| == 4
    ensures |WriteHeader(h, version, unused)| == 32
    ensures ParseHeader(WriteHeader(h, version, unused) + rest) == HeaderOk(h)
  {
    WordSizes();
    LittleEndianRoundTrip(h.width, 2);
    LittleEndianRoundTrip(h.height, 2);
    LittleEndianRoundTrip(h.den, 4);
    LittleEndianRoundTrip(h.num, 4);
    LittleEndianRoundTrip(h.frames, 4);
    NumberSlices(DKIF + version + VP80, LittleEndian(h.width, 2), LittleEndian(h.height, 2),
                 LittleEndian(h.den, 4), LittleEndian(h.num, 4), LittleEndian(h.frames, 4), unused + rest);
    NameSlices(version, Numbers(h) + (unused + rest));
    Regroup(DKIF + version + VP80, Numbers(h), unused, rest);
  }

  lemma FrameSlices(size: seq<byte>, pts: seq<byte>, data: seq<byte>, rest: seq<byte>)
    requires |size| == 4 && |pts| == 8
    ensures var b := size + pts + data + rest;
            b[0..4] == size && b[4..12] == pts && b[12..12 + |data|] == data
  {
  }

  lemma FrameLayout(f: Frame, rest: seq<byte>)
    requires ValidFrame(f)
    ensures var b := WriteFrame(f) + rest;
            && |WriteFrame(f)| == 12 + |f.data|
            && FromLittleEndian(b[0..4]) == |f.data|
            && FromLittleEndian(b[4..12]) == f.pts
            && b[12..12 + |f.data|] == f.data
  {
    WordSizes();
    LittleEndianRoundTrip(|f.data|, 4);
    LittleEndianRoundTrip(f.pts, 8);
    FrameSlices(LittleEndian(|f.data|, 4), LittleEndian(f.pts, 8), f.data, rest);
  }

  /** A frame cut to `n` octets is read if and only if all of it is there. */
  lemma CutFrame(f: Frame, rest: seq<byte>, n: nat)
    requires ValidFrame(f) && n <= |WriteFrame(f) + rest|
    ensures |WriteFrame(f)| == 12 + |f.data|
    ensures var b := (WriteFrame(f) + rest)[..n];
            && (HasFrame(b) <==> |WriteFrame(f)| <= n)
            && (HasFrame(b) ==> FirstFrame(b) == f && FrameSize(b) == |f.data|)
  {
    FrameLayout(f, rest);
    var all := WriteFrame(f) + rest;
    var b := all[..n];
    if n >= 12 {
      assert b[0..4] == all[0..4] && b[4..12] == all[4..12];
      if n >= 12 + |f.data| {
        assert b[12..12 + |f.data|] == all[12..12 + |f.data|];
      }
    }
  }

  /** Cut frames read back as exactly the longest prefix of complete ones. */
  lemma {:induction false} CutYieldsCompleteFrames(fs: seq<Frame>, n: nat)
    requires forall i :: 0 <= i < |fs| ==> ValidFrame(fs[i])
    requires n <= |WriteFrames(fs)|
    ensures var got := Frames(WriteFrames(fs)[..n]);
            && got <= fs
            && (forall k :: 0 <= k <= |fs| ==> (|WriteFrames(fs[..k])| <= n <==> k <= |got|))
  {
    if fs == [] {
    } else {
      var f, rest := fs[0], WriteFrames(fs[1..]);
      var b := WriteFrames(fs)[..n];
      CutFrame(f, rest, n);
      if n >= |WriteFrame(f)| {
        var m := n - |WriteFrame(f)|;
        assert b[12 + |f.data|..] == rest[..m];
        CutYieldsCompleteFrames(fs[1..], m);
        forall k | 0 <= k <= |fs|
          ensures |WriteFrames(fs[..k])| <= n <==> k <= |Frames(b)|
        {
          if k > 0 {
            assert fs[..k][0] == f && fs[..k][1..] == fs[1..][..k - 1];
          }
        }
      } else {
        forall k | 0 <= k <= |fs|
          ensures |WriteFrames(fs[..k])| <= n <==> k <= 0
        {
          if k > 0 {
            assert fs[..k][0] == f;
          }
        }
      }
    }
  }

  lemma FramesRoundTrip(fs: seq<Frame>)
    requires forall i :: 0 <= i < |fs| ==> ValidFrame(fs[i])
    ensures Frames(WriteFrames(fs)) == fs
  {
    var body := WriteFrames(fs);
    assert body[..|body|] == body && fs[..|fs|] == fs;
    CutYieldsCompleteFrames(fs, |body|);
  }

  function WriteFile(header: seq<byte>, fs: seq<Frame>): seq<byte> {
    header + WriteFrames(fs)
  }

  /** A file cut anywhere after its header gives back its header and exactly the
      longest prefix of complete frames, with their data and PTS; uncut, all of
      them. Cut inside the header it is refused. */
  lemma FileRoundTrip(h: Header, version: seq<byte>, unused: seq<byte>, fs: seq<Frame>, n: nat)
    requires ValidHeader(h) && |version| == 4 && |unused| == 4
    requires forall i :: 0 <= i < |fs| ==> ValidFrame(fs[i])
    requires n <= |WriteFile(WriteHeader(h, version, unused), fs)|
    ensures var file := WriteFile(WriteHeader(h, version, unused), fs);
            && |file| == 32 + |WriteFrames(fs)|
            && ParseHeader(file[..n]) == (if n < 32 then ShortHeader else HeaderOk(h))
            && (n >= 32 ==>
                  var got := Frames(file[..n][32..]);
                  && got <= fs && (n == |file| ==> got == fs)
                  && (forall k :: 0 <= k <= |fs| ==> (32 + |WriteFrames(fs[..k])| <= n <==> k <= |got|)))
  {
    var header, body := WriteHeader(h, version, unused), WriteFrames(fs);
    HeaderRoundTrip(h, version, unused, []);
    if n >= 32 {
      HeaderRoundTrip(h, version, unused, body[..n - 32]);
      CutPastHeader(header, body, n);
      CutYieldsCompleteFrames(fs, n - 32);
      FramesRoundTrip(fs);
      assert body[..|body|] == body;
    }
  }

  lemma CutPastHeader(header: seq<byte>, body: seq<byte>, n: nat)
    requires |header| == 32 <= n <= 32 + |body|
    ensures (header + body)[..n] == header + body[..n - 32]
    ensures (header + body)[..n][32..] == body[..n - 32]
  {
  }
}
