// Egress metering: what a poll reports, and that no byte is lost or counted twice.
module Egress {
  import opened Media
  import opened MediaSwitch

  // ---------------------------------------------------------------------------
  // Sums over the viewers
  // ---------------------------------------------------------------------------

  /** The bytes of the viewers in `ids` whose billing source is in `srcs`. */
  function Sum(objs: seq<ViewerObj>, ids: set<nat>, srcs: set<string>): nat {
    if objs == [] then 0
    else
      var n := |objs| - 1;
      Sum(objs[..n], ids, srcs) + if n in ids && objs[n].billing in srcs then objs[n].bytes else 0
  }

  function Total(objs: seq<ViewerObj>, ids: set<nat>): nat {
    if objs == [] then 0
    else
      var n := |objs| - 1;
      Total(objs[..n], ids) + if n in ids then objs[n].bytes else 0
  }

  /** Inclusion and exclusion. */
  lemma {:induction false} SumUnion(objs: seq<ViewerObj>, a: set<nat>, b: set<nat>, srcs: set<string>)
    ensures Sum(objs, a, srcs) + Sum(objs, b, srcs) == Sum(objs, a + b, srcs) + Sum(objs, a * b, srcs)
  {
    if objs != [] {
      SumUnion(objs[..|objs| - 1], a, b, srcs);
    }
  }

  lemma {:induction false} SumEmpty(objs: seq<ViewerObj>, srcs: set<string>)
    ensures Sum(objs, {}, srcs) == 0
  {
    if objs != [] {
      SumEmpty(objs[..|objs| - 1], srcs);
    }
  }

  lemma {:induction false} SumNoSource(objs: seq<ViewerObj>, ids: set<nat>)
    ensures Sum(objs, ids, {}) == 0
  {
    if objs != [] {
      SumNoSource(objs[..|objs| - 1], ids);
    }
  }

  lemma {:induction false} SumOneMoreSource(objs: seq<ViewerObj>, ids: set<nat>, srcs: set<string>, s: string)
    requires s !in srcs
    ensures Sum(objs, ids, srcs + {s}) == Sum(objs, ids, srcs) + Sum(objs, ids, {s})
  {
    if objs != [] {
      SumOneMoreSource(objs[..|objs| - 1], ids, srcs, s);
    }
  }

  /** Same ids count, and those that count have the same source and bytes. */
  predicate SameMoney(a: seq<ViewerObj>, b: seq<ViewerObj>, ids: set<nat>, jds: set<nat>) {
    && |a| == |b|
    && forall i :: 0 <= i < |a| ==>
         && (i in ids <==> i in jds)
         && (i in ids ==> a[i].billing == b[i].billing && a[i].bytes == b[i].bytes)
  }

  lemma {:induction false} SumFrame(a: seq<ViewerObj>, b: seq<ViewerObj>, ids: set<nat>, jds: set<nat>, srcs: set<string>)
    requires SameMoney(a, b, ids, jds)
    ensures Sum(a, ids, srcs) == Sum(b, jds, srcs) && Total(a, ids) == Total(b, jds)
  {
    if a != [] {
      SumFrame(a[..|a| - 1], b[..|a| - 1], ids, jds, srcs);
    }
  }

  /** One viewer's share. */
  function Share(v: ViewerObj, counted: bool, srcs: set<string>): nat {
    if counted && v.billing in srcs then v.bytes else 0
  }

  lemma {:induction false} SumUpdate(objs: seq<ViewerObj>, ids: set<nat>, srcs: set<string>, i: nat, v: ViewerObj)
    requires i < |objs|
    ensures Sum(objs[i := v], ids, srcs) == Sum(objs, ids, srcs) - Share(objs[i], i in ids, srcs) + Share(v, i in ids, srcs)
    ensures Share(objs[i], i in ids, srcs) <= Sum(objs, ids, srcs)
  {
    var n := |objs| - 1;
    if i == n {
      assert objs[i := v][..n] == objs[..n];
    } else {
      assert objs[i := v][..n] == objs[..n][i := v];
      SumUpdate(objs[..n], ids, srcs, i, v);
    }
  }

  /** Splitting a total by whether the viewer has a billing source among `srcs`. */
  lemma {:induction false} TotalSplits(objs: seq<ViewerObj>, ids: set<nat>, srcs: set<string>)
    requires "" !in srcs
    requires forall i :: 0 <= i < |objs| && i in ids && objs[i].bytes > 0 ==> objs[i].billing in srcs + {""}
    ensures Total(objs, ids) == Sum(objs, ids, srcs) + Sum(objs, ids, {""})
  {
    if objs != [] {
      TotalSplits(objs[..|objs| - 1], ids, srcs);
    }
  }

  lemma {:induction false} SumPositive(objs: seq<ViewerObj>, ids: set<nat>, i: nat)
    requires i < |objs| && i in ids && objs[i].bytes > 0
    ensures Sum(objs, ids, {objs[i].billing}) > 0
  {
    SumUpdate(objs, ids, {objs[i].billing}, i, objs[i]);
  }

  lemma {:induction false} SumSingle(objs: seq<ViewerObj>, i: nat, srcs: set<string>)
    requires i < |objs|
    ensures Sum(objs, {i}, srcs) == Share(objs[i], true, srcs)
  {
    var n := |objs| - 1;
    if i == n {
      SumFrame(objs[..n], objs[..n], {i}, {}, srcs);
      SumEmpty(objs[..n], srcs);
    } else {
      SumSingle(objs[..n], i, srcs);
    }
  }

  // ---------------------------------------------------------------------------
  // The snapshot
  // ---------------------------------------------------------------------------

  datatype Reading = Reading(source: string, bytes: nat)

  function At(totals: map<string, nat>, src: string): nat {
    if src in totals then totals[src] else 0
  }

  /** The closed totals with a list of viewers added one by one. */
  function Tally(closed: map<string, nat>, objs: seq<ViewerObj>, list: seq<nat>): map<string, nat>
    requires forall k :: 0 <= k < |list| ==> list[k] < |objs|
  {
    if list == [] then closed
    else
      var n := |list| - 1;
      Fold(Tally(closed, objs, list[..n]), objs[list[n]].billing, objs[list[n]].bytes)
  }

  function Sources(report: seq<Reading>): set<string> {
    set r <- report :: r.source
  }

  /** The report has one reading for each source of `totals`. */
  predicate Reports(report: seq<Reading>, totals: map<string, nat>) {
    && (forall i, j :: 0 <= i < j < |report| ==> report[i].source != report[j].source)
    && (forall i :: 0 <= i < |report| ==> report[i].source in totals && report[i].bytes == totals[report[i].source])
    && Sources(report) == totals.Keys
  }

  /** egressSnapshot over a list of viewers copied earlier. */
  method EgressSnapshot(closed: map<string, nat>, objs: seq<ViewerObj>, list: seq<nat>) returns (report: seq<Reading>)
    requires forall k :: 0 <= k < |list| ==> list[k] < |objs|
    ensures Reports(report, Tally(closed, objs, list))
  {
    var totals := AddViewers(closed, objs, list);
    report := ListReadings(totals);
  }

  method AddViewers(closed: map<string, nat>, objs: seq<ViewerObj>, list: seq<nat>) returns (totals: map<string, nat>)
    requires forall k :: 0 <= k < |list| ==> list[k] < |objs|
    ensures totals == Tally(closed, objs, list)
  {
    totals := closed;
    var k := 0;
    while k < |list|
      invariant 0 <= k <= |list|
      invariant totals == Tally(closed, objs, list[..k])
    {
      var v := objs[list[k]];
      assert list[..k + 1][..k] == list[..k];
      if v.billing != "" && v.bytes > 0 {
        var sofar := if v.billing in totals then totals[v.billing] else 0;
        totals := totals[v.billing := sofar + v.bytes];
      }
      k := k + 1;
    }
    assert list[..k] == list;
  }

  method ListReadings(totals: map<string, nat>) returns (report: seq<Reading>)
    ensures Reports(report, totals)
  {
    report := [];
    var todo := totals.Keys;
    while todo != {}
      invariant todo <= totals.Keys
      invariant Reports(report, totals - todo)
      decreases todo
    {
      var src :| src in todo;
      ReportsNext(report, totals - todo, src, totals[src]);
      report := report + [Reading(src, totals[src])];
      todo := todo - {src};
      assert (totals - (todo + {src}))[src := totals[src]] == totals - todo;
    }
    assert totals - todo == totals;
  }

  lemma ReportsNext(report: seq<Reading>, totals: map<string, nat>, src: string, n: nat)
    requires Reports(report, totals) && src !in totals
    ensures Reports(report + [Reading(src, n)], totals[src := n])
  {
    var next := report + [Reading(src, n)];
    forall i | 0 <= i < |report|
      ensures report[i].source != src
    {
      assert report[i] in report;
    }
    assert Sources(next) == Sources(report) + {src} by {
      assert next[|report|] == Reading(src, n);
      forall x | x in Sources(report)
        ensures x in Sources(next)
      {
        var r :| r in report && r.source == x;
        assert r in next;
      }
    }
  }

  lemma FoldAt(closed: map<string, nat>, v: ViewerObj, src: string)
    requires src != ""
    ensures At(Fold(closed, v.billing, v.bytes), src) == At(closed, src) + Share(v, true, {src})
  {
  }

  function Ids(list: seq<nat>): set<nat> {
    set i <- list
  }

  predicate Distinct(list: seq<nat>) {
    forall i, j :: 0 <= i < j < |list| ==> list[i] != list[j]
  }

  lemma {:induction false} TallyAt(closed: map<string, nat>, objs: seq<ViewerObj>, list: seq<nat>, src: string)
    requires Distinct(list) && src != ""
    requires forall k :: 0 <= k < |list| ==> list[k] < |objs|
    ensures At(Tally(closed, objs, list), src) == At(closed, src) + Sum(objs, Ids(list), {src})
  {
    if list == [] {
      assert Ids(list) == {};
      SumEmpty(objs, {src});
    } else {
      var n := |list| - 1;
      var init, i := list[..n], list[n];
      TallyAt(closed, objs, init, src);
      FoldAt(Tally(closed, objs, init), objs[i], src);
      assert Ids(list) == Ids(init) + {i} && Ids(init) * {i} == {};
      SumUnion(objs, Ids(init), {i}, {src});
      SumSingle(objs, i, {src});
      SumEmpty(objs, {src});
    }
  }

  // ---------------------------------------------------------------------------
  // What is folded, what is live
  // ---------------------------------------------------------------------------

  function With(objs: seq<ViewerObj>, status: Status): set<nat> {
    set i | 0 <= i < |objs| && objs[i].status == status
  }

  /** The viewers a poll counts. */
  function Polled(objs: seq<ViewerObj>): set<nat> {
    With(objs, Live) + With(objs, Folded)
  }

  /** The viewers whose bytes are owed: those, and those on their way from the map
      to the closed totals. */
  function Counted(objs: seq<ViewerObj>): set<nat> {
    Polled(objs) + With(objs, Closing)
  }

  function Bytes(objs: seq<ViewerObj>): nat {
    if objs == [] then 0 else Bytes(objs[..|objs| - 1]) + objs[|objs| - 1].bytes
  }

  ghost predicate ClosedInv(s: Switch) {
    && "" !in s.closed
    && forall src :: src != "" ==> At(s.closed, src) == Sum(s.objs, With(s.objs, Folded), {src})
  }

  /** The closed totals stay right when the folded viewers do not change. */
  lemma SameFolded(s: Switch, t: Switch)
    requires ClosedInv(s) && t.closed == s.closed && |t.objs| == |s.objs|
    requires forall i :: 0 <= i < |s.objs| ==>
               && (t.objs[i].status == Folded <==> s.objs[i].status == Folded)
               && (s.objs[i].status == Folded ==> t.objs[i].billing == s.objs[i].billing && t.objs[i].bytes == s.objs[i].bytes)
    ensures ClosedInv(t)
  {
    forall src | src != ""
      ensures At(t.closed, src) == Sum(t.objs, With(t.objs, Folded), {src})
    {
      SumFrame(s.objs, t.objs, With(s.objs, Folded), With(t.objs, Folded), {src});
    }
  }

  lemma FoldKeepsClosed(s: Switch, v: nat)
    requires Valid(s) && ClosedInv(s) && v < |s.objs| && s.objs[v].status == Closing
    ensures ClosedInv(FoldStep(s, v))
  {
    var t := FoldStep(s, v);
    var f, g := With(s.objs, Folded), With(t.objs, Folded);
    assert g == f + {v} && f * {v} == {};
    forall src | src != ""
      ensures At(t.closed, src) == Sum(t.objs, g, {src})
    {
      FoldAt(s.closed, s.objs[v], src);
      SumFrame(s.objs, t.objs, f + {v}, g, {src});
      OneMore(s.objs, f, v, src);
    }
  }

  lemma NewKeepsClosed(s: Switch)
    requires Valid(s) && ClosedInv(s)
    ensures ClosedInv(Step(s, NewViewer))
  {
    var t := Step(s, NewViewer);
    var n := |s.objs|;
    assert t.objs[..n] == s.objs;
    forall src | src != ""
      ensures At(t.closed, src) == Sum(t.objs, With(t.objs, Folded), {src})
    {
      assert Sum(t.objs, With(t.objs, Folded), {src}) == Sum(s.objs, With(t.objs, Folded), {src});
      SumFrame(s.objs, s.objs, With(s.objs, Folded), With(t.objs, Folded), {src});
    }
  }

  lemma FoldedUnchanged(s: Switch, a: Action)
    requires Valid(s) && !a.FoldViewer? && !a.NewViewer?
    ensures var t := Step(s, a);
            && t.closed == s.closed && |t.objs| == |s.objs|
            && forall i :: 0 <= i < |s.objs| ==>
                 && (t.objs[i].status == Folded <==> s.objs[i].status == Folded)
                 && (s.objs[i].status == Folded ==> t.objs[i].billing == s.objs[i].billing && t.objs[i].bytes == s.objs[i].bytes)
  {
    match a
    case AddViewer(id, _) => assert id in s.viewers ==> Registered(s, id, s.viewers[id]);
    case RemoveViewer(id, _) => assert id in s.viewers ==> Registered(s, id, s.viewers[id]);
    case SwitchViewer(id, _) => assert id in s.viewers ==> Registered(s, id, s.viewers[id]);
    case _ =>
  }

  lemma StepKeepsClosed(s: Switch, a: Action)
    requires Valid(s) && ClosedInv(s)
    ensures ClosedInv(Step(s, a))
  {
    match a
    case FoldViewer(obj) =>
      if obj < |s.objs| && s.objs[obj].status == Closing {
        FoldKeepsClosed(s, obj);
      }
    case NewViewer => NewKeepsClosed(s);
    case _ =>
      FoldedUnchanged(s, a);
      SameFolded(s, Step(s, a));
  }

  lemma {:induction false} BytesUpdate(objs: seq<ViewerObj>, i: nat, v: ViewerObj)
    requires i < |objs|
    ensures Bytes(objs[i := v]) == Bytes(objs) - objs[i].bytes + v.bytes
  {
    var n := |objs| - 1;
    if i == n {
      assert objs[i := v][..n] == objs[..n];
    } else {
      assert objs[i := v][..n] == objs[..n][i := v];
      BytesUpdate(objs[..n], i, v);
    }
  }

  lemma {:induction false} BytesFrame(a: seq<ViewerObj>, b: seq<ViewerObj>)
    requires |a| == |b| && forall i :: 0 <= i < |a| ==> a[i].bytes == b[i].bytes
    ensures Bytes(a) == Bytes(b)
  {
    if a != [] {
      BytesFrame(a[..|a| - 1], b[..|b| - 1]);
    }
  }

  lemma MeterKeepsMetered(s: Switch, obj: nat, size: nat)
    requires s.metered == Bytes(s.objs) + s.late
    ensures var t := MeterStep(s, obj, size); t.metered == Bytes(t.objs) + t.late
  {
    if obj < |s.objs| {
      BytesUpdate(s.objs, obj, s.objs[obj].(bytes := s.objs[obj].bytes + size));
    }
  }

  /** Nothing but writeTrack counts bytes. */
  lemma NoBytesCounted(s: Switch, a: Action)
    requires Valid(s) && !a.Meter? && !a.NewViewer?
    ensures var t := Step(s, a);
            && t.metered == s.metered && t.late == s.late && |t.objs| == |s.objs|
            && forall i :: 0 <= i < |s.objs| ==> t.objs[i].bytes == s.objs[i].bytes
  {
    match a
    case AddViewer(id, _) => assert id in s.viewers ==> Registered(s, id, s.viewers[id]);
    case RemoveViewer(id, _) => assert id in s.viewers ==> Registered(s, id, s.viewers[id]);
    case SwitchViewer(id, _) => assert id in s.viewers ==> Registered(s, id, s.viewers[id]);
    case _ =>
  }

  lemma StepKeepsMetered(s: Switch, a: Action)
    requires Valid(s) && s.metered == Bytes(s.objs) + s.late
    ensures var t := Step(s, a); t.metered == Bytes(t.objs) + t.late
  {
    match a
    case Meter(obj, size) => MeterKeepsMetered(s, obj, size);
    case NewViewer => assert Step(s, a).objs[..|s.objs|] == s.objs;
    case _ =>
      NoBytesCounted(s, a);
      BytesFrame(s.objs, Step(s, a).objs);
  }

  lemma {:induction false} Books(acts: seq<Action>)
    ensures ClosedInv(Exec(acts)) && Exec(acts).metered == Bytes(Exec(acts).objs) + Exec(acts).late
  {
    if acts == [] {
      assert With(EMPTY.objs, Folded) == {};
    } else {
      var s := Exec(acts[..|acts| - 1]);
      Books(acts[..|acts| - 1]);
      StepKeepsClosed(s, acts[|acts| - 1]);
      StepKeepsMetered(s, acts[|acts| - 1]);
    }
  }

  // ---------------------------------------------------------------------------
  // A poll
  // ---------------------------------------------------------------------------

  /** The reading of `src` in a report. */
  function Read(report: seq<Reading>, src: string): nat {
    if report == [] then 0
    else if report[|report| - 1].source == src then report[|report| - 1].bytes
    else Read(report[..|report| - 1], src)
  }

  lemma {:induction false} ReadIs(report: seq<Reading>, i: nat)
    requires i < |report| && forall j, k :: 0 <= j < k < |report| ==> report[j].source != report[k].source
    ensures Read(report, report[i].source) == report[i].bytes
  {
    if i < |report| - 1 {
      ReadIs(report[..|report| - 1], i);
    }
  }

  lemma {:induction false} ReadNothing(report: seq<Reading>, src: string)
    requires src !in Sources(report)
    ensures Read(report, src) == 0
  {
    if report != [] {
      var n := |report| - 1;
      assert report[n] in report;
      assert forall r <- report[..n] :: r in report;
      ReadNothing(report[..n], src);
    }
  }

  lemma ReadReported(report: seq<Reading>, totals: map<string, nat>, src: string)
    requires Reports(report, totals)
    ensures Read(report, src) == At(totals, src)
  {
    if src in totals {
      assert src in Sources(report);
      var r :| r in report && r.source == src;
      var i :| 0 <= i < |report| && report[i] == r;
      ReadIs(report, i);
    } else {
      ReadNothing(report, src);
    }
  }

  /** A poll in one step of the state `acts` leads to. */
  predicate Polls(report: seq<Reading>, list: seq<nat>, acts: seq<Action>) {
    var s := Exec(acts);
    && Distinct(list) && Ids(list) == With(s.objs, Live)
    && (forall k :: 0 <= k < |list| ==> list[k] < |s.objs|)
    && Reports(report, Tally(s.closed, s.objs, list))
  }

  /** What `src` is owed for. */
  function Owed(s: Switch, src: string): nat {
    Sum(s.objs, Counted(s.objs), {src})
  }

  /** In every reachable state, a report made from any list of viewers, however old,
      counts each viewer as often as it is in the list or folded: once, unless the
      list is out of date. A viewer folded after the list was copied is counted
      twice, and one in neither is missed. */
  lemma PollCounts(acts: seq<Action>, list: seq<nat>, report: seq<Reading>, src: string)
    requires Distinct(list) && (forall k :: 0 <= k < |list| ==> list[k] < |Exec(acts).objs|)
    requires Reports(report, Tally(Exec(acts).closed, Exec(acts).objs, list)) && src != ""
    ensures var objs := Exec(acts).objs;
            var folded := With(objs, Folded);
            Read(report, src) == Sum(objs, folded + Ids(list), {src}) + Sum(objs, folded * Ids(list), {src})
  {
    var s := Exec(acts);
    Books(acts);
    TallyAt(s.closed, s.objs, list, src);
    ReadReported(report, Tally(s.closed, s.objs, list), src);
    SumUnion(s.objs, With(s.objs, Folded), Ids(list), {src});
  }

  /** Polled in one step, the list is the registered viewers and each source reads
      exactly what it is owed, but for viewers between the map and the fold. */
  lemma PollIsExact(acts: seq<Action>, list: seq<nat>, report: seq<Reading>, src: string)
    requires Polls(report, list, acts) && src != ""
    ensures var s := Exec(acts);
            && Read(report, src) == Sum(s.objs, Polled(s.objs), {src})
            && Read(report, src) + Sum(s.objs, With(s.objs, Closing), {src}) == Owed(s, src)
  {
    PollCounts(acts, list, report, src);
    var objs := Exec(acts).objs;
    assert With(objs, Folded) + Ids(list) == Polled(objs);
    assert With(objs, Folded) * Ids(list) == {};
    SumUnion(objs, Polled(objs), With(objs, Closing), {src});
    assert Polled(objs) * With(objs, Closing) == {};
    SumEmpty(objs, {src});
  }

  // ---------------------------------------------------------------------------
  // Conservation
  // ---------------------------------------------------------------------------

  function Reported(report: seq<Reading>): nat {
    if report == [] then 0 else Reported(report[..|report| - 1]) + report[|report| - 1].bytes
  }

  lemma {:induction false} ReportedIsSum(report: seq<Reading>, objs: seq<ViewerObj>, ids: set<nat>)
    requires forall i, j :: 0 <= i < j < |report| ==> report[i].source != report[j].source
    requires forall i :: 0 <= i < |report| ==> report[i].bytes == Sum(objs, ids, {report[i].source})
    ensures Reported(report) == Sum(objs, ids, Sources(report))
  {
    if report == [] {
      assert Sources(report) == {};
      SumNoSource(objs, ids);
    } else {
      var n := |report| - 1;
      var init, last := report[..n], report[n].source;
      ReportedIsSum(init, objs, ids);
      assert report == init + [report[n]];
      assert last !in Sources(init);
      assert Sources(report) == Sources(init) + {last};
      SumOneMoreSource(objs, ids, Sources(init), last);
    }
  }

  lemma {:induction false} BytesSplit(objs: seq<ViewerObj>, a: set<nat>, b: set<nat>)
    requires a !! b && forall i :: 0 <= i < |objs| && i !in a + b ==> objs[i].bytes == 0
    ensures Bytes(objs) == Total(objs, a) + Total(objs, b)
  {
    if objs != [] {
      BytesSplit(objs[..|objs| - 1], a, b);
    }
  }

  lemma {:induction false} TallyHasNoBlank(closed: map<string, nat>, objs: seq<ViewerObj>, list: seq<nat>)
    requires "" !in closed && forall k :: 0 <= k < |list| ==> list[k] < |objs|
    ensures "" !in Tally(closed, objs, list)
  {
    if list != [] {
      TallyHasNoBlank(closed, objs, list[..|list| - 1]);
    }
  }

  lemma ReadingsAreSums(acts: seq<Action>, list: seq<nat>, report: seq<Reading>)
    requires Polls(report, list, acts)
    ensures "" !in Sources(report)
    ensures var objs := Exec(acts).objs;
            forall i :: 0 <= i < |report| ==> report[i].bytes == Sum(objs, Polled(objs), {report[i].source})
  {
    var s := Exec(acts);
    Books(acts);
    TallyHasNoBlank(s.closed, s.objs, list);
    forall i | 0 <= i < |report|
      ensures report[i].bytes == Sum(s.objs, Polled(s.objs), {report[i].source})
    {
      assert report[i].source in Tally(s.closed, s.objs, list);
      PollIsExact(acts, list, report, report[i].source);
      ReadIs(report, i);
    }
  }

  lemma BilledIsReported(acts: seq<Action>, list: seq<nat>, report: seq<Reading>, i: nat)
    requires Polls(report, list, acts)
    requires var objs := Exec(acts).objs; i < |objs| && i in Polled(objs) && objs[i].bytes > 0
    ensures Exec(acts).objs[i].billing in Sources(report) + {""}
  {
    var s := Exec(acts);
    var src := s.objs[i].billing;
    if src != "" {
      SumPositive(s.objs, Polled(s.objs), i);
      PollIsExact(acts, list, report, src);
      ReadReported(report, Tally(s.closed, s.objs, list), src);
    }
  }

  /** The sizes of all the packets written to registered viewers. */
  function AllSent(acts: seq<Action>): nat {
    if acts == [] then 0
    else
      var n := |acts| - 1;
      var objs := Exec(acts[..n]).objs;
      AllSent(acts[..n])
      + if acts[n].Meter? && acts[n].obj < |objs| && objs[acts[n].obj].status != New then acts[n].size else 0
  }

  lemma {:induction false} MeteredIsSent(acts: seq<Action>)
    ensures Exec(acts).metered == AllSent(acts)
  {
    if acts != [] {
      var n := |acts| - 1;
      MeteredIsSent(acts[..n]);
      if !acts[n].Meter? && !acts[n].NewViewer? {
        NoBytesCounted(Exec(acts[..n]), acts[n]);
      }
    }
  }

  /** Over every run: the reported totals, the bytes of polled viewers that never
      had a programme source, the bytes of displaced viewers and of those between the
      map and the fold, and the bytes that came after a fold are together all the
      bytes of all the packets ever written. */
  lemma BytesAreConserved(acts: seq<Action>, list: seq<nat>, report: seq<Reading>)
    requires Polls(report, list, acts)
    ensures var s := Exec(acts);
            Reported(report) + Sum(s.objs, Polled(s.objs), {""})
            + Total(s.objs, With(s.objs, Displaced) + With(s.objs, Closing)) + s.late == AllSent(acts)
  {
    var s := Exec(acts);
    MeteredIsSent(acts);
    var polled, others := Polled(s.objs), With(s.objs, Displaced) + With(s.objs, Closing);
    Books(acts);
    ReadingsAreSums(acts, list, report);
    ReportedIsSum(report, s.objs, polled);
    forall i | 0 <= i < |s.objs| && i in polled && s.objs[i].bytes > 0
      ensures s.objs[i].billing in Sources(report) + {""}
    {
      BilledIsReported(acts, list, report, i);
    }
    TotalSplits(s.objs, polled, Sources(report));
    forall i | 0 <= i < |s.objs| && i !in polled + others
      ensures s.objs[i].bytes == 0
    {
      assert ObjInv(s.viewers, s.objs[i], i);
    }
    BytesSplit(s.objs, polled, others);
  }

  // ---------------------------------------------------------------------------
  // Readings from poll to poll
  // ---------------------------------------------------------------------------

  /** SwitchViewer `a` moves an open viewer's billing somewhere new. */
  predicate Rebills(s: Switch, a: Action)
    requires Valid(s)
  {
    && a.SwitchViewer? && a.id in s.viewers && a.to in s.sources && IsProgrammeSourceID(a.to)
    && Registered(s, a.id, s.viewers[a.id]) && s.objs[s.viewers[a.id]].billing != a.to
  }

  predicate Displaces(s: Switch, a: Action)
    requires Valid(s)
  {
    a.AddViewer? && Registrable(s, a.obj) && a.id in s.viewers && Registered(s, a.id, s.viewers[a.id])
  }

  /** What a step takes from the reading of `src`: the bytes of a viewer displaced
      while billed to it, or moved away from it. */
  function Loss(s: Switch, a: Action, src: string): nat
    requires Valid(s)
  {
    if (Rebills(s, a) || Displaces(s, a)) && s.objs[s.viewers[a.id]].billing == src
    then s.objs[s.viewers[a.id]].bytes else 0
  }

  /** Still counted under its own counter. */
  predicate Open(v: ViewerObj) {
    v.status == Live || v.status == Closing
  }

  /** What a step adds: bytes sent to a viewer billed to it, or a viewer moved to
      it with all its past bytes. */
  function Gain(s: Switch, a: Action, src: string): nat
    requires Valid(s)
  {
    if a.Meter? && a.obj < |s.objs| && Open(s.objs[a.obj]) && s.objs[a.obj].billing == src then a.size
    else if Rebills(s, a) && a.to == src then s.objs[s.viewers[a.id]].bytes
    else 0
  }

  lemma SameOwed(s: Switch, t: Switch, src: string)
    requires SameMoney(s.objs, t.objs, Counted(s.objs), Counted(t.objs))
    ensures Owed(t, src) == Owed(s, src)
  {
    SumFrame(s.objs, t.objs, Counted(s.objs), Counted(t.objs), {src});
  }

  lemma UpdatedOwed(s: Switch, t: Switch, i: nat, src: string)
    requires i < |s.objs| == |t.objs| && t.objs == s.objs[i := t.objs[i]]
    requires t.objs[i].status == s.objs[i].status
    ensures Owed(t, src) == Owed(s, src) - Share(s.objs[i], i in Counted(s.objs), {src}) + Share(t.objs[i], i in Counted(s.objs), {src})
  {
    SumUpdate(s.objs, Counted(s.objs), {src}, i, t.objs[i]);
    assert Counted(t.objs) == Counted(s.objs);
  }

  /** Two counted sets that differ by one viewer on each side. */
  lemma SwapSum(objs: seq<ViewerObj>, before: set<nat>, after: set<nat>, join: nat, leave: nat, src: string)
    requires join < |objs| && leave < |objs|
    requires before + {join} == after + {leave} && join !in before && leave !in after
    ensures Sum(objs, before, {src}) + Share(objs[join], true, {src}) == Sum(objs, after, {src}) + Share(objs[leave], true, {src})
  {
    OneMore(objs, before, join, src);
    OneMore(objs, after, leave, src);
  }

  lemma OneMore(objs: seq<ViewerObj>, ids: set<nat>, i: nat, src: string)
    requires i < |objs| && i !in ids
    ensures Sum(objs, ids + {i}, {src}) == Sum(objs, ids, {src}) + Share(objs[i], true, {src})
  {
    assert ids * {i} == {};
    SumUnion(objs, ids, {i}, {src});
    SumSingle(objs, i, {src});
    SumEmpty(objs, {src});
  }

  lemma DisplaceOwed(s: Switch, id: string, obj: nat, src: string)
    requires Valid(s) && src != "" && Displaces(s, AddViewer(id, obj))
    ensures Owed(AddViewerStep(s, id, obj), src) == Owed(s, src) - Share(s.objs[s.viewers[id]], true, {src})
  {
    var t := AddViewerStep(s, id, obj);
    var before, after, d := Counted(s.objs), Counted(t.objs), s.viewers[id];
    assert ObjInv(s.viewers, s.objs[obj], obj);
    assert before + {obj} == after + {d};
    SumFrame(s.objs, t.objs, after, after, {src});
    SwapSum(s.objs, before, after, obj, d, src);
  }

  lemma JoinOwed(s: Switch, id: string, obj: nat, src: string)
    requires Valid(s) && src != "" && Registrable(s, obj) && id !in s.viewers
    ensures Owed(AddViewerStep(s, id, obj), src) == Owed(s, src)
  {
    var t := AddViewerStep(s, id, obj);
    var before, after := Counted(s.objs), Counted(t.objs);
    assert ObjInv(s.viewers, s.objs[obj], obj);
    assert before + {obj} == after;
    SumFrame(s.objs, t.objs, after, after, {src});
    OneMore(s.objs, before, obj, src);
  }

  lemma AddViewerOwed(s: Switch, id: string, obj: nat, src: string)
    requires Valid(s) && src != "" && Registrable(s, obj)
    ensures Owed(AddViewerStep(s, id, obj), src) == Owed(s, src) - Loss(s, AddViewer(id, obj), src)
  {
    if id in s.viewers {
      assert Registered(s, id, s.viewers[id]);
      DisplaceOwed(s, id, obj, src);
    } else {
      JoinOwed(s, id, obj, src);
    }
  }

  lemma SwitchOwed(s: Switch, id: string, to: string, src: string)
    requires Valid(s) && src != ""
    ensures var a := SwitchViewer(id, to);
            Owed(Step(s, a), src) == Owed(s, src) + Gain(s, a, src) - Loss(s, a, src)
  {
    if id in s.viewers && to in s.sources {
      assert Registered(s, id, s.viewers[id]);
      UpdatedOwed(s, SwitchViewerStep(s, id, to), s.viewers[id], src);
    }
  }

  lemma MeterOwed(s: Switch, obj: nat, size: nat, src: string)
    requires Valid(s) && src != ""
    ensures Owed(MeterStep(s, obj, size), src) == Owed(s, src) + Gain(s, Meter(obj, size), src)
  {
    if obj < |s.objs| && s.objs[obj].status != New && s.objs[obj].status != Folded {
      UpdatedOwed(s, MeterStep(s, obj, size), obj, src);
    }
  }

  lemma OtherOwed(s: Switch, a: Action, src: string)
    requires Valid(s) && src != "" && !a.AddViewer? && !a.SwitchViewer? && !a.Meter?
    ensures Owed(Step(s, a), src) == Owed(s, src)
  {
    var t := Step(s, a);
    match a
    case NewViewer =>
      assert t.objs[..|s.objs|] == s.objs;
      SumFrame(s.objs, s.objs, Counted(s.objs), Counted(t.objs), {src});
    case RemoveViewer(id, want) =>
      assert id in s.viewers ==> Registered(s, id, s.viewers[id]);
      SameOwed(s, t, src);
    case _ => SameOwed(s, t, src);
  }

  /** Exactly how one step changes what a source is owed. */
  lemma OwedChanges(s: Switch, a: Action, src: string)
    requires Valid(s) && src != ""
    ensures Owed(Step(s, a), src) == Owed(s, src) + Gain(s, a, src) - Loss(s, a, src)
    ensures Loss(s, a, src) == 0 || Gain(s, a, src) == 0
  {
    match a
    case AddViewer(id, obj) =>
      if Registrable(s, obj) {
        AddViewerOwed(s, id, obj, src);
      }
    case SwitchViewer(id, to) => SwitchOwed(s, id, to, src);
    case Meter(obj, size) => MeterOwed(s, obj, size, src);
    case _ => OtherOwed(s, a, src);
  }

  /** A step lowers what a source is owed exactly when it displaces a viewer billed
      to it, or moves one away to another programme, with bytes on its counter. */
  lemma OwedDropsIff(s: Switch, a: Action, src: string)
    requires Valid(s) && src != ""
    ensures Owed(Step(s, a), src) < Owed(s, src) <==>
            && (Rebills(s, a) || Displaces(s, a))
            && s.objs[s.viewers[a.id]].billing == src && s.objs[s.viewers[a.id]].bytes > 0
  {
    OwedChanges(s, a, src);
  }

  /** No displacement, and no viewer moved from one programme to another. */
  predicate Calm(s: Switch, a: Action)
    requires Valid(s)
  {
    !Displaces(s, a) && (Rebills(s, a) ==> s.objs[s.viewers[a.id]].billing == "")
  }

  predicate CalmRun(acts: seq<Action>, more: seq<Action>) {
    forall k :: 0 <= k < |more| ==> Calm(Exec(acts + more[..k]), more[k])
  }

  /** Through joins, ad breaks and departures, what a source is owed never goes
      down. */
  lemma {:induction false} OwedNeverGoesDown(acts: seq<Action>, more: seq<Action>, src: string)
    requires src != "" && CalmRun(acts, more)
    ensures Owed(Exec(acts), src) <= Owed(Exec(acts + more), src)
  {
    if more == [] {
      assert acts + more == acts;
    } else {
      var n := |more| - 1;
      assert forall k :: 0 <= k < n ==> more[..n][..k] == more[..k];
      OwedNeverGoesDown(acts, more[..n], src);
      assert Calm(Exec(acts + more[..n]), more[n]);
      ExecLast(acts, more);
      OwedChanges(Exec(acts + more[..n]), more[n], src);
    }
  }

  /** From poll to poll, a source's reading goes down by no more than the bytes of
      the viewers that are between the map and the fold at the later poll. */
  lemma ReadingsNeverGoDown(acts: seq<Action>, more: seq<Action>, src: string,
                            list: seq<nat>, report: seq<Reading>, later: seq<nat>, next: seq<Reading>)
    requires src != "" && CalmRun(acts, more)
    requires Polls(report, list, acts) && Polls(next, later, acts + more)
    ensures var objs := Exec(acts + more).objs;
            Read(report, src) <= Read(next, src) + Sum(objs, With(objs, Closing), {src})
  {
    PollIsExact(acts, list, report, src);
    PollIsExact(acts + more, later, next, src);
    OwedNeverGoesDown(acts, more, src);
  }

  /** Taking a viewer off the map hides its bytes from the poll; the fold brings all
      of them back, with whatever was sent in between. */
  lemma RemovalHidesUntilFold(s: Switch, id: string, want: Option<nat>, src: string)
    requires Valid(s) && Removable(s, id, want) && src != ""
    ensures var v, t := s.viewers[id], RemoveViewerStep(s, id, want);
            var u := FoldStep(t, v);
            && v < |s.objs|
            && Sum(t.objs, Polled(t.objs), {src}) + Share(s.objs[v], true, {src}) == Sum(s.objs, Polled(s.objs), {src})
            && Sum(u.objs, Polled(u.objs), {src}) == Sum(s.objs, Polled(s.objs), {src})
  {
    var v, t := s.viewers[id], RemoveViewerStep(s, id, want);
    var u := FoldStep(t, v);
    assert Registered(s, id, v);
    assert Polled(s.objs) == Polled(t.objs) + {v} && Polled(u.objs) == Polled(s.objs);
    OneMore(s.objs, Polled(t.objs), v, src);
    SumFrame(s.objs, t.objs, Polled(t.objs), Polled(t.objs), {src});
    SumFrame(s.objs, u.objs, Polled(s.objs), Polled(u.objs), {src});
  }

  // ---------------------------------------------------------------------------
  // An ad break
  // ---------------------------------------------------------------------------

  /** Step `a` moves viewer `v` to a programme. */
  predicate ToProgramme(s: Switch, a: Action, v: nat) {
    && a.SwitchViewer? && a.id in s.viewers && s.viewers[a.id] == v
    && a.to in s.sources && IsProgrammeSourceID(a.to)
  }

  /** Through `more`, viewer `v` is moved to ads, detached or left alone, but not
      moved to a programme. Anything may happen to the others. */
  predicate InBreak(acts: seq<Action>, more: seq<Action>, v: nat) {
    more == [] ||
    (var n := |more| - 1;
     InBreak(acts, more[..n], v) && !ToProgramme(Exec(acts + more[..n]), more[n], v))
  }

  /** The bytes step `a` puts on viewer `v`'s counter. */
  function SentBy(s: Switch, a: Action, v: nat): nat {
    if a.Meter? && a.obj == v && v < |s.objs| && s.objs[v].status != New && s.objs[v].status != Folded then a.size else 0
  }

  /** All bytes put on it through `more`. */
  function SentTo(acts: seq<Action>, more: seq<Action>, v: nat): nat {
    if more == [] then 0
    else
      var n := |more| - 1;
      SentTo(acts, more[..n], v) + SentBy(Exec(acts + more[..n]), more[n], v)
  }

  lemma BreakStep(s: Switch, a: Action, v: nat)
    requires Valid(s) && v < |s.objs| && !ToProgramme(s, a, v)
    ensures var t := Step(s, a);
            && v < |t.objs| && t.objs[v].billing == s.objs[v].billing
            && t.objs[v].bytes == s.objs[v].bytes + SentBy(s, a, v)
  {
    match a
    case AddViewer(id, _) => assert id in s.viewers ==> Registered(s, id, s.viewers[id]);
    case RemoveViewer(id, _) => assert id in s.viewers ==> Registered(s, id, s.viewers[id]);
    case SwitchViewer(id, _) => assert id in s.viewers ==> Registered(s, id, s.viewers[id]);
    case _ =>
  }

  lemma {:induction false} BreakKeepsBilling(acts: seq<Action>, more: seq<Action>, v: nat)
    requires v < |Exec(acts).objs| && InBreak(acts, more, v)
    ensures var s, t := Exec(acts), Exec(acts + more);
            && v < |t.objs| && t.objs[v].billing == s.objs[v].billing
            && t.objs[v].bytes == s.objs[v].bytes + SentTo(acts, more, v)
  {
    if more == [] {
      assert acts + more == acts;
    } else {
      var n := |more| - 1;
      BreakKeepsBilling(acts, more[..n], v);
      ExecLast(acts, more);
      BreakStep(Exec(acts + more[..n]), more[n], v);
    }
  }

  /** Through any ad break, among any steps of the others: the viewer stays billed to
      the programme the break interrupted, its counter grows by exactly the bytes
      sent to it, and, unless it was displaced, they are all owed by that programme
      and none by any other source. */
  lemma AdBytesBillTheProgramme(acts: seq<Action>, more: seq<Action>, v: nat, src: string)
    requires v < |Exec(acts).objs| && InBreak(acts, more, v) && src != ""
    ensures var s, t := Exec(acts), Exec(acts + more);
            && v < |t.objs| && t.objs[v].billing == s.objs[v].billing
            && t.objs[v].bytes == s.objs[v].bytes + SentTo(acts, more, v)
            && (v in Counted(t.objs) ==>
                  Owed(t, src) == Sum(t.objs, Counted(t.objs) - {v}, {src})
                                  + if src == s.objs[v].billing then s.objs[v].bytes + SentTo(acts, more, v) else 0)
  {
    BreakKeepsBilling(acts, more, v);
    var objs := Exec(acts + more).objs;
    if v in Counted(objs) {
      assert Counted(objs) - {v} + {v} == Counted(objs);
      OneMore(objs, Counted(objs) - {v}, v, src);
    }
  }

  /** Through `more`, viewer `v` is switched only to sources named as ads. */
  predicate OnlyToAds(acts: seq<Action>, more: seq<Action>, v: nat) {
    more == [] ||
    (var n := |more| - 1;
     && OnlyToAds(acts, more[..n], v)
     && (Routes(Exec(acts + more[..n]), more[n], v) ==> "ad-" <= more[n].to))
  }

  lemma {:induction false} AdsAreABreak(acts: seq<Action>, more: seq<Action>, v: nat)
    requires OnlyToAds(acts, more, v)
    ensures InBreak(acts, more, v)
  {
    if more != [] {
      var n := |more| - 1;
      AdsAreABreak(acts, more[..n], v);
      if Routes(Exec(acts + more[..n]), more[n], v) {
        ProgrammesAndAds(more[n].to[3..]);
        assert more[n].to == "ad-" + more[n].to[3..];
      }
    }
  }

  /** A viewer billed to a broadcast and then switched to nothing but ads stays billed
      to it, for every byte sent meanwhile, until it is displaced. */
  lemma BroadcastIsBilledThroughAds(acts: seq<Action>, more: seq<Action>, v: nat, x: string)
    requires v < |Exec(acts).objs| && OnlyToAds(acts, more, v)
    requires Exec(acts).objs[v].billing == "stream-" + x
    ensures var s, t := Exec(acts), Exec(acts + more);
            && v < |t.objs| && t.objs[v].billing == "stream-" + x
            && t.objs[v].bytes == s.objs[v].bytes + SentTo(acts, more, v)
            && (v in Counted(t.objs) ==>
                  Owed(t, "stream-" + x) == Sum(t.objs, Counted(t.objs) - {v}, {"stream-" + x}) + t.objs[v].bytes)
  {
    AdsAreABreak(acts, more, v);
    AdBytesBillTheProgramme(acts, more, v, "stream-" + x);
  }

  /** And being routed to a broadcast is what bills a viewer to it. */
  lemma RoutingToABroadcastBills(s: Switch, id: string, x: string)
    requires Valid(s) && id in s.viewers && "stream-" + x in s.sources
    ensures var t, v := Step(s, SwitchViewer(id, "stream-" + x)), s.viewers[id];
            v < |t.objs| && t.objs[v].billing == "stream-" + x
  {
    assert Registered(s, id, s.viewers[id]);
    ProgrammesAndAds(x);
  }

  // ---------------------------------------------------------------------------
  // Runs in which a reading is wrong
  // ---------------------------------------------------------------------------

  function OneViewer(id: string, programme: string, n: nat): seq<Action> {
    [AddSource(programme, 0), NewViewer, AddViewer(id, 0), SwitchViewer(id, programme), Meter(0, n)]
  }

  lemma OneJoined(id: string, programme: string)
    ensures var s := Exec([AddSource(programme, 0), NewViewer, AddViewer(id, 0)]);
            && s.objs == [ViewerObj(id, Live, "", "", 0)]
            && s.viewers == map[id := 0] && s.sources == map[programme := 0]
  {
    var a1, a2 := [AddSource(programme, 0)], [AddSource(programme, 0), NewViewer];
    var a3 := [AddSource(programme, 0), NewViewer, AddViewer(id, 0)];
    assert a1[..0] == [] && a2[..1] == a1 && a3[..2] == a2;
    assert Exec(a1).sources == map[programme := 0] && Exec(a1).objs == [] && Exec(a1).viewers == map[];
    assert Exec(a2).objs == [ViewerObj("", New, "", "", 0)];
  }

  lemma OneViewerOwes(id: string, programme: string, n: nat)
    requires IsProgrammeSourceID(programme)
    ensures var s := Exec(OneViewer(id, programme, n));
            && s.objs == [ViewerObj(id, Live, programme, programme, n)]
            && s.viewers == map[id := 0] && programme in s.sources
            && Owed(s, programme) == n
  {
    var acts := OneViewer(id, programme, n);
    OneJoined(id, programme);
    assert acts[..4][..3] == [AddSource(programme, 0), NewViewer, AddViewer(id, 0)];
    assert Exec(acts[..4]).objs == [ViewerObj(id, Live, programme, programme, 0)];
    var objs := Exec(acts).objs;
    assert objs == [ViewerObj(id, Live, programme, programme, n)];
    assert Counted(objs) == {0};
    SumSingle(objs, 0, {programme});
  }

  /** The same id again: the displaced viewer's bytes are in no reading any more. */
  lemma DisplacedBytesAreLost(id: string, programme: string, n: nat)
    requires IsProgrammeSourceID(programme)
    ensures Owed(Exec(OneViewer(id, programme, n)), programme) == n
    ensures Owed(Exec(OneViewer(id, programme, n) + [NewViewer, AddViewer(id, 1)]), programme) == 0
  {
    var acts := OneViewer(id, programme, n);
    OneViewerOwes(id, programme, n);
    var s := Exec(acts);
    ConcatLast(acts, [NewViewer, AddViewer(id, 1)]);
    ExecLast(acts, [NewViewer]);
    assert acts + [NewViewer][..0] == acts;
    var s1 := Exec(acts + [NewViewer]);
    OwedChanges(s, NewViewer, programme);
    ExecLast(acts, [NewViewer, AddViewer(id, 1)]);
    OwedChanges(s1, AddViewer(id, 1), programme);
  }

  /** Another programme: all the viewer's past bytes change hands. */
  lemma ProgrammeChangeTakesPastBytes(id: string, programme: string, other: string, n: nat)
    requires IsProgrammeSourceID(programme) && IsProgrammeSourceID(other) && programme != other
    ensures var t := Exec(OneViewer(id, programme, n) + [AddSource(other, 1), SwitchViewer(id, other)]);
            Owed(t, programme) == 0 && Owed(t, other) == n
  {
    var acts, a := OneViewer(id, programme, n), AddSource(other, 1);
    OneViewerOwes(id, programme, n);
    var s := Exec(acts);
    SumSingle(s.objs, 0, {other});
    assert Counted(s.objs) == {0};
    ExecLast(acts, [a]);
    assert acts + [a][..0] == acts && [a, SwitchViewer(id, other)][..1] == [a];
    OwedChanges(s, a, programme);
    OwedChanges(s, a, other);
    ExecLast(acts, [a, SwitchViewer(id, other)]);
    OwedChanges(Exec(acts + [a]), SwitchViewer(id, other), programme);
    OwedChanges(Exec(acts + [a]), SwitchViewer(id, other), other);
  }

  function RemovedAndFolded(id: string, programme: string, n: nat): seq<Action> {
    OneViewer(id, programme, n) + [RemoveViewer(id, None), FoldViewer(0)]
  }

  lemma FoldedState(id: string, programme: string, n: nat)
    requires IsProgrammeSourceID(programme)
    ensures Exec(RemovedAndFolded(id, programme, n)).objs == [ViewerObj(id, Folded, programme, programme, n)]
  {
    var acts, gone := OneViewer(id, programme, n), RemoveViewer(id, None);
    OneViewerOwes(id, programme, n);
    ExecLast(acts, [gone]);
    assert acts + [gone][..0] == acts && [gone, FoldViewer(0)][..1] == [gone];
    assert Exec(acts + [gone]).objs == [ViewerObj(id, Closing, programme, programme, n)];
    ExecLast(acts, [gone, FoldViewer(0)]);
  }

  /** The poll copies its list of viewers, the viewer is removed and folded, and the
      poll goes on: the programme reads twice the bytes that were sent. */
  lemma FoldedAfterTheCopyCountsTwice(id: string, programme: string, n: nat, report: seq<Reading>)
    requires IsProgrammeSourceID(programme)
    requires |Exec(RemovedAndFolded(id, programme, n)).objs| == 1
    requires var s := Exec(RemovedAndFolded(id, programme, n)); Reports(report, Tally(s.closed, s.objs, [0]))
    ensures Ids([0]) == With(Exec(OneViewer(id, programme, n)).objs, Live)
    ensures Read(report, programme) == 2 * n
  {
    var acts := RemovedAndFolded(id, programme, n);
    var objs := Exec(acts).objs;
    OneViewerOwes(id, programme, n);
    FoldedState(id, programme, n);
    PollCounts(acts, [0], report, programme);
    assert Ids([0]) == {0} && With(objs, Folded) == {0};
    assert With(objs, Folded) + {0} == {0} && With(objs, Folded) * {0} == {0};
    SumSingle(objs, 0, {programme});
  }
}
