// Two handlers of one kind at once. Overlapping activations leave a viewer subscribed
// to two sources, whose goroutines then run its packet handler side by side. The
// handler numbers a packet in one critical section and stores its timestamp in a
// second; between the two, others may do the same.
//
// One kind's lane is enough: the kinds share nothing. Each source has one goroutine
// per kind, so an activation has at most one packet between the sections.
module ViewerInterleaving {
  import opened Media
  import opened ViewerTimeline

  datatype Weave = Weave(
    lane: Lane,
    gates: seq<Gate>,
    held: seq<Option<Sent>>,  // per activation: numbered, not delivered yet
    numbered: seq<Sent>,      // in the order of the first section
    behind: seq<nat>,         // how many had been delivered when it was numbered
    sent: seq<Sent>)          // in the order of delivery

  datatype Move = Begin | First(a: nat, pkt: Packet) | Second(a: nat)

  const IDLE: Weave := Weave(Lane(0, 0, false), [], [], [], [], [])

  function FirstSection(s: Weave, step: nat, a: nat, pkt: Packet): Weave
    requires a < |s.gates| == |s.held|
  {
    var out := Rewritten(s.lane, s.gates[a], step, pkt);
    var r := Sent(a, pkt, out);
    s.(lane := s.lane.(seqNo := out.seqNo),
       gates := s.gates[a := Opened(s.lane, s.gates[a], step, pkt.ts)],
       held := s.held[a := Some(r)], numbered := s.numbered + [r], behind := s.behind + [|s.sent|])
  }

  function SecondSection(s: Weave, a: nat): Weave
    requires a < |s.held| && s.held[a].Some?
  {
    var r := s.held[a].value;
    s.(lane := Lane(s.lane.seqNo, r.out.ts, true), held := s.held[a := None], sent := s.sent + [r])
  }

  function Next(s: Weave, step: nat, m: Move): Weave
    requires |s.gates| == |s.held|
  {
    match m
    case Begin => s.(gates := s.gates + [Gate(0, false)], held := s.held + [None])
    case First(a, pkt) => if a < |s.gates| && s.held[a].None? then FirstSection(s, step, a, pkt) else s
    case Second(a) => if a < |s.gates| && s.held[a].Some? then SecondSection(s, a) else s
  }

  function Woven(moves: seq<Move>, step: nat): (s: Weave)
    ensures |s.gates| == |s.held|
  {
    if moves == [] then IDLE else Next(Woven(moves[..|moves| - 1], step), step, moves[|moves| - 1])
  }

  // ---------------------------------------------------------------------------
  // What survives
  // ---------------------------------------------------------------------------

  /** The packets of one activation, in order. */
  function Of(sent: seq<Sent>, a: nat): seq<Sent> {
    if sent == [] then []
    else
      var n := |sent| - 1;
      Of(sent[..n], a) + if sent[n].activation == a then [sent[n]] else []
  }

  function HeldBy(s: Weave, a: nat): seq<Sent>
    requires a < |s.held|
  {
    if s.held[a].Some? then [s.held[a].value] else []
  }

  /** Counters and offsets, read off what has been numbered and delivered. */
  predicate LaneInv(s: Weave) {
    && |s.gates| == |s.held| && |s.behind| == |s.numbered|
    && s.lane.seqNo == Wrap16(|s.numbered|)
    && (s.lane.lastSet <==> s.sent != [])
    && (s.sent != [] ==> s.lane.lastTs == s.sent[|s.sent| - 1].out.ts)
    && (forall i :: 0 <= i < |s.numbered| ==> OnItsGate(s.gates, s.numbered[i]))
    && (forall a :: 0 <= a < |s.gates| && !s.gates[a].ready ==> s.gates[a].offset == 0)
    && (forall a :: 0 <= a < |s.gates| && s.gates[a].ready ==> Used(s.numbered, a))
  }

  predicate OnItsGate(gates: seq<Gate>, r: Sent) {
    r.activation < |gates| && gates[r.activation].ready
    && r.out.ts == Wrap32(r.source.ts + gates[r.activation].offset)
  }

  /** Each activation's packets are delivered in order, each once; at most the last
      is still on its way. */
  predicate DeliveredInv(s: Weave) {
    && |s.gates| == |s.held|
    && (forall a :: 0 <= a < |s.held| && s.held[a].Some? ==> s.held[a].value.activation == a)
    && (forall i :: 0 <= i < |s.numbered| ==> s.numbered[i].activation < |s.held|)
    && (forall i :: 0 <= i < |s.sent| ==> s.sent[i].activation < |s.held|)
    && forall a :: 0 <= a < |s.held| ==> Of(s.numbered, a) == Of(s.sent, a) + HeldBy(s, a)
  }

  /** The first packet of an activation comes one step after the last packet that had
      been delivered when it was numbered. */
  predicate Follows(s: Weave, step: nat, i: nat)
    requires i < |s.numbered| == |s.behind|
  {
    && s.behind[i] <= |s.sent|
    && s.numbered[i].out.ts
       == if s.behind[i] == 0 then s.numbered[i].source.ts else Wrap32(s.sent[s.behind[i] - 1].out.ts + step)
  }

  predicate BridgedInv(s: Weave, step: nat) {
    && |s.behind| == |s.numbered|
    && forall i :: 0 <= i < |s.numbered| && OpensActivation(s.numbered, i) ==> Follows(s, step, i)
  }

  lemma OfNext(sent: seq<Sent>, r: Sent, a: nat)
    ensures Of(sent + [r], a) == Of(sent, a) + if r.activation == a then [r] else []
  {
    assert (sent + [r])[..|sent|] == sent;
  }

  lemma {:induction false} OfNobody(sent: seq<Sent>, a: nat)
    requires forall i :: 0 <= i < |sent| ==> sent[i].activation != a
    ensures Of(sent, a) == []
  {
    if sent != [] {
      OfNobody(sent[..|sent| - 1], a);
    }
  }

  lemma FirstKeepsLane(s: Weave, step: nat, a: nat, pkt: Packet)
    requires LaneInv(s) && a < |s.gates|
    ensures LaneInv(FirstSection(s, step, a, pkt))
  {
    var t := FirstSection(s, step, a, pkt);
    var r := t.numbered[|s.numbered|];
    SeqNoNext(|s.numbered|);
    forall i | 0 <= i < |t.numbered|
      ensures OnItsGate(t.gates, t.numbered[i])
    {
      if i < |s.numbered| {
        assert OnItsGate(s.gates, s.numbered[i]);
      }
    }
    forall b | 0 <= b < |t.gates| && t.gates[b].ready
      ensures Used(t.numbered, b)
    {
      UsedNext(s.numbered, r, b);
    }
  }

  lemma FirstKeepsNumbers(s: Weave, step: nat, a: nat, pkt: Packet)
    requires LaneInv(s) && a < |s.gates| && Numbered(s.numbered) && Intact(s.numbered) && Spaced(s.numbered)
    ensures var t := FirstSection(s, step, a, pkt); Numbered(t.numbered) && Intact(t.numbered) && Spaced(t.numbered)
  {
    var r := FirstSection(s, step, a, pkt).numbered[|s.numbered|];
    SeqNoNext(|s.numbered|);
    forall i | 0 <= i < |s.numbered| && s.numbered[i].activation == a
      ensures SpacedFrom(s.numbered[i], r)
    {
      assert OnItsGate(s.gates, s.numbered[i]);
      SpacingTs(pkt.ts, s.numbered[i].source.ts, s.gates[a].offset);
    }
    SpacedNext(s.numbered, r);
  }

  lemma FirstKeepsBridged(s: Weave, step: nat, a: nat, pkt: Packet)
    requires LaneInv(s) && BridgedInv(s, step) && a < |s.gates|
    ensures BridgedInv(FirstSection(s, step, a, pkt), step)
  {
    var t := FirstSection(s, step, a, pkt);
    var n := |s.numbered|;
    forall i | 0 <= i < |t.numbered| && OpensActivation(t.numbered, i)
      ensures Follows(t, step, i)
    {
      if i < n {
        OpensEarlier(s.numbered, t.numbered[n], i);
        assert Follows(s, step, i);
      } else {
        OpenerIsUnused(s.numbered, t.numbered[n]);
        BridgeTs(s.lane.lastTs, step, pkt.ts);
      }
    }
  }

  lemma FirstKeepsDelivered(s: Weave, step: nat, a: nat, pkt: Packet)
    requires DeliveredInv(s) && a < |s.gates| && s.held[a].None?
    ensures DeliveredInv(FirstSection(s, step, a, pkt))
  {
    var t := FirstSection(s, step, a, pkt);
    forall b | 0 <= b < |t.held|
      ensures Of(t.numbered, b) == Of(t.sent, b) + HeldBy(t, b)
    {
      OfNext(s.numbered, t.numbered[|s.numbered|], b);
      assert Of(s.numbered, b) == Of(s.sent, b) + HeldBy(s, b);
    }
  }

  lemma SecondKeepsDelivered(s: Weave, a: nat)
    requires DeliveredInv(s) && a < |s.held| && s.held[a].Some?
    ensures DeliveredInv(SecondSection(s, a))
  {
    var t := SecondSection(s, a);
    forall b | 0 <= b < |t.held|
      ensures Of(t.numbered, b) == Of(t.sent, b) + HeldBy(t, b)
    {
      OfNext(s.sent, s.held[a].value, b);
      assert Of(s.numbered, b) == Of(s.sent, b) + HeldBy(s, b);
    }
  }

  lemma SecondKeepsBridged(s: Weave, step: nat, a: nat)
    requires BridgedInv(s, step) && a < |s.held| && s.held[a].Some?
    ensures BridgedInv(SecondSection(s, a), step)
  {
    var t := SecondSection(s, a);
    forall i | 0 <= i < |t.numbered| && OpensActivation(t.numbered, i)
      ensures Follows(t, step, i)
    {
      assert Follows(s, step, i);
    }
  }

  lemma BeginKeepsLane(s: Weave, step: nat)
    requires LaneInv(s)
    ensures LaneInv(Next(s, step, Begin))
  {
    var t := Next(s, step, Begin);
    forall i | 0 <= i < |t.numbered|
      ensures OnItsGate(t.gates, t.numbered[i])
    {
      assert OnItsGate(s.gates, s.numbered[i]);
    }
  }

  lemma BeginKeepsDelivered(s: Weave, step: nat)
    requires DeliveredInv(s)
    ensures DeliveredInv(Next(s, step, Begin))
  {
    var t := Next(s, step, Begin);
    OfNobody(s.numbered, |s.held|);
    OfNobody(s.sent, |s.held|);
    forall b | 0 <= b < |t.held|
      ensures Of(t.numbered, b) == Of(t.sent, b) + HeldBy(t, b)
    {
      if b < |s.held| {
        assert Of(s.numbered, b) == Of(s.sent, b) + HeldBy(s, b);
      }
    }
  }

  lemma BeginKeepsBridged(s: Weave, step: nat)
    requires BridgedInv(s, step) && |s.gates| == |s.held|
    ensures BridgedInv(Next(s, step, Begin), step)
  {
    var t := Next(s, step, Begin);
    forall i | 0 <= i < |t.numbered| && OpensActivation(t.numbered, i)
      ensures Follows(t, step, i)
    {
      assert Follows(s, step, i);
    }
  }

  /** However the handlers interleave: every packet is numbered 1, 2, 3, ... modulo
      2^16 in the order of the first sections, keeps its source's spacing within its
      activation and its payload, and is delivered once, in order within its
      activation; the first of an activation comes one step after the last packet
      delivered before it was numbered. */
  lemma {:induction false} WhatSurvivesOverlap(moves: seq<Move>, step: nat)
    ensures var s := Woven(moves, step);
            && LaneInv(s) && DeliveredInv(s) && BridgedInv(s, step)
            && Numbered(s.numbered) && Spaced(s.numbered) && Intact(s.numbered)
  {
    if moves != [] {
      var s, m := Woven(moves[..|moves| - 1], step), moves[|moves| - 1];
      WhatSurvivesOverlap(moves[..|moves| - 1], step);
      match m
      case Begin =>
        BeginKeepsLane(s, step);
        BeginKeepsDelivered(s, step);
        BeginKeepsBridged(s, step);
      case First(a, pkt) =>
        if a < |s.gates| && s.held[a].None? {
          FirstKeepsLane(s, step, a, pkt);
          FirstKeepsNumbers(s, step, a, pkt);
          FirstKeepsBridged(s, step, a, pkt);
          FirstKeepsDelivered(s, step, a, pkt);
        }
      case Second(a) =>
        if a < |s.gates| && s.held[a].Some? {
          SecondKeepsDelivered(s, a);
          SecondKeepsBridged(s, step, a);
        }
    }
  }

  // ---------------------------------------------------------------------------
  // What does not
  // ---------------------------------------------------------------------------

  predicate NobodyHolds(s: Weave) {
    forall a :: 0 <= a < |s.held| ==> s.held[a].None?
  }

  function Deliver(s: Weave, order: seq<nat>): (t: Weave)
    requires |s.gates| == |s.held|
    ensures |t.gates| == |t.held| && t.numbered == s.numbered
  {
    if order == [] then s else Next(Deliver(s, order[..|order| - 1]), 0, Second(order[|order| - 1]))
  }

  /** Only activation `a` holds a packet, and everything before it is delivered. */
  predicate OnlyHolds(s: Weave, a: nat) {
    && |s.gates| == |s.held| && a < |s.held| && s.held[a].Some? && s.numbered == s.sent + [s.held[a].value]
    && forall b :: 0 <= b < |s.held| && b != a ==> s.held[b].None?
  }

  lemma {:induction false} OneIsDeliveredInOrder(s: Weave, a: nat, order: seq<nat>)
    requires OnlyHolds(s, a)
    ensures var t := Deliver(s, order); OnlyHolds(t, a) || (NobodyHolds(t) && t.sent == t.numbered)
  {
    if order != [] {
      OneIsDeliveredInOrder(s, a, order[..|order| - 1]);
    }
  }

  lemma Overtakes(s: Weave, step: nat, a: nat, b: nat, pkt: Packet)
    requires OnlyHolds(s, b) && DeliveredInv(s) && a < |s.held| && a != b
    ensures var t := FirstSection(s, step, a, pkt); !(Deliver(t, [a]).sent <= t.numbered)
  {
    var t := FirstSection(s, step, a, pkt);
    assert [a][..0] == [] && Deliver(t, []) == t;
    var u := SecondSection(t, a);
    assert Deliver(t, [a]) == u;
    assert u.sent == s.sent + [t.held[a].value] && t.numbered == s.sent + [s.held[b].value] + [t.held[a].value];
    assert u.sent[|s.sent|].activation == a && t.numbered[|s.sent|].activation == b;
  }

  /** With nobody between the sections, the two in a row are the handler as one step. */
  lemma AloneIsOneStep(s: Weave, step: nat, a: nat, pkt: Packet)
    requires |s.gates| == |s.held| && a < |s.gates|
    ensures var t, u := SecondSection(FirstSection(s, step, a, pkt), a), Send(Track(s.lane, s.gates, s.sent), a, step, pkt);
            && t.lane == u.lane && t.gates == u.gates && t.sent == u.sent
            && (NobodyHolds(s) && s.numbered == s.sent ==> NobodyHolds(t) && t.numbered == t.sent)
  {
  }

  /** From a viewer that has seen everything in order, the next packet keeps it so,
      whichever handler goes on first, exactly when no other activation is between its
      two sections. */
  lemma InOrderIff(s: Weave, step: nat, a: nat, pkt: Packet)
    requires LaneInv(s) && DeliveredInv(s) && a < |s.held| && s.held[a].None?
    requires (NobodyHolds(s) && s.numbered == s.sent) || exists b: nat :: OnlyHolds(s, b)
    ensures NobodyHolds(s) <==>
            forall order: seq<nat> :: Deliver(FirstSection(s, step, a, pkt), order).sent <= FirstSection(s, step, a, pkt).numbered
  {
    var t := FirstSection(s, step, a, pkt);
    if NobodyHolds(s) {
      forall order: seq<nat>
        ensures Deliver(t, order).sent <= t.numbered
      {
        OneIsDeliveredInOrder(t, a, order);
      }
    } else {
      var b: nat :| OnlyHolds(s, b);
      Overtakes(s, step, a, b, pkt);
      assert !(Deliver(t, [a]).sent <= t.numbered);
    }
  }

  /** The first packet of an activation that begins while another packet is between
      the sections is one step after that packet exactly when the packet repeats the
      timestamp delivered last, or nothing was delivered and it happens to be there. */
  lemma BridgesHeldIff(s: Weave, step: nat, a: nat, b: nat, pkt: Packet)
    requires LaneInv(s) && OnlyHolds(s, b) && a < |s.gates| && !s.gates[a].ready
    ensures var held := s.held[b].value.out.ts;
            FirstSection(s, step, a, pkt).numbered[|s.numbered|].out.ts == Wrap32(held + step)
            <==> if s.sent == [] then pkt.ts == Wrap32(held + step) else s.sent[|s.sent| - 1].out.ts == held
  {
    BridgeTs(s.lane.lastTs, step, pkt.ts);
    if s.sent != [] {
      var last, held := s.lane.lastTs, s.held[b].value.out.ts;
      WrapInjective(last + step, held + step);
    }
  }

  lemma BothNumbered(p: Packet, q: Packet, step: nat)
    ensures var s := Woven([Begin, Begin, First(0, p), First(1, q)], step);
            && s.held == [Some(Sent(0, p, Packet(1, p.ts, p.payload))), Some(Sent(1, q, Packet(2, q.ts, q.payload)))]
            && s.sent == [] && |s.gates| == 2
  {
    var m1, m2, m3 := [Begin], [Begin, Begin], [Begin, Begin, First(0, p)];
    var m4 := [Begin, Begin, First(0, p), First(1, q)];
    assert m1[..0] == [] && m2[..1] == m1 && m3[..2] == m2 && m4[..3] == m3;
    assert Woven(m1, step) == IDLE.(gates := [Gate(0, false)], held := [None]);
    assert Woven(m2, step) == IDLE.(gates := [Gate(0, false), Gate(0, false)], held := [None, None]);
    var s3 := Woven(m3, step);
    assert s3.held == [Some(Sent(0, p, Packet(1, p.ts, p.payload))), None] && s3.gates[1] == Gate(0, false);
  }

  /** A run: two activations, and the second one's packet overtakes the first's. The
      viewer gets number 2 before number 1, and the second source's timestamps are not
      bridged at all. */
  lemma OverlapReorders(p: Packet, q: Packet, step: nat)
    ensures var s := Woven([Begin, Begin, First(0, p), First(1, q), Second(1), Second(0)], step);
            && |s.sent| == 2
            && s.sent[0].out == Packet(2, q.ts, q.payload) && s.sent[1].out == Packet(1, p.ts, p.payload)
  {
    var m4 := [Begin, Begin, First(0, p), First(1, q)];
    var m5 := [Begin, Begin, First(0, p), First(1, q), Second(1)];
    var m6 := [Begin, Begin, First(0, p), First(1, q), Second(1), Second(0)];
    assert m5[..4] == m4 && m6[..5] == m5;
    BothNumbered(p, q, step);
    var s5 := Woven(m5, step);
    assert s5.held == [Woven(m4, step).held[0], None] && |s5.sent| == 1;
  }
}
