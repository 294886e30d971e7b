// The routing matrix: sources and viewers registered by id, viewers displaced,
// removed and switched, and each viewer's egress counter.
//
// Viewer and source objects are told apart by number, as Go tells references apart;
// `objs` is every viewer ever made. Taking a viewer off the map and folding its
// counter are two steps, with anything in between. Registering a viewer and closing
// the one it displaces is one step.
module MediaSwitch {
  import opened Media

  const PROGRAMME_PREFIX := "stream-"

  predicate IsProgrammeSourceID(id: string) {
    PROGRAMME_PREFIX <= id
  }

  /** What mm-core calls a programme, and what it calls an ad. */
  lemma ProgrammesAndAds(x: string)
    ensures IsProgrammeSourceID("stream-" + x) && !IsProgrammeSourceID("ad-" + x) && !IsProgrammeSourceID("")
  {
    assert ("stream-" + x)[..7] == "stream-";
    assert ("ad-" + x)[0] == 'a';
  }

  /** Closing: off the map, counter not folded yet. */
  datatype Status = New | Live | Closing | Folded | Displaced

  /** `id` is the id it was registered under. */
  datatype ViewerObj = ViewerObj(id: string, status: Status, current: string, billing: string, bytes: nat)
  {
    predicate Closed() {
      status == Closing || status == Folded || status == Displaced
    }
  }

  datatype Switch = Switch(
    sources: map<string, nat>,
    viewers: map<string, nat>,
    objs: seq<ViewerObj>,
    stopped: set<nat>,          // sources whose Stop was called
    closed: map<string, nat>,   // closedEgress
    late: nat,                  // bytes counted on viewers already folded
    metered: nat)               // all bytes ever counted by writeTrack

  const EMPTY: Switch := Switch(map[], map[], [], {}, map[], 0, 0)

  datatype Action =
    | AddSource(id: string, src: nat)
    | RemoveSource(id: string, wantSrc: Option<nat>)
    | NewViewer
    | AddViewer(id: string, obj: nat)
    | RemoveViewer(id: string, want: Option<nat>)
    | FoldViewer(gone: nat)
    | SwitchViewer(id: string, to: string)
    | Meter(obj: nat, size: nat)

  // ---------------------------------------------------------------------------
  // One step
  // ---------------------------------------------------------------------------

  function Detach(v: ViewerObj, id: string): ViewerObj {
    if v.current == id then v.(current := "") else v
  }

  /** Every registered viewer on source `id` is detached. */
  function DetachAll(objs: seq<ViewerObj>, id: string): seq<ViewerObj> {
    seq(|objs|, i requires 0 <= i < |objs| => if objs[i].status == Live then Detach(objs[i], id) else objs[i])
  }

  function RemoveSourceStep(s: Switch, id: string, want: Option<nat>): Switch {
    if id !in s.sources || (want.Some? && s.sources[id] != want.value) then s
    else s.(sources := s.sources - {id},
            stopped := s.stopped + {s.sources[id]},
            objs := DetachAll(s.objs, id))
  }

  /** Adding bytes to a source's closed total; nothing without a source or bytes. */
  function Fold(closed: map<string, nat>, billing: string, bytes: nat): map<string, nat> {
    if billing == "" || bytes == 0 then closed
    else closed[billing := (if billing in closed then closed[billing] else 0) + bytes]
  }

  /** The caller hands in a viewer it has just made. */
  predicate Registrable(s: Switch, obj: nat) {
    obj < |s.objs| && s.objs[obj].status == New
  }

  function AddViewerStep(s: Switch, id: string, obj: nat): Switch
    requires Valid(s)
  {
    if !Registrable(s, obj) then s
    else
      var objs := if id in s.viewers
                  then s.objs[s.viewers[id] := s.objs[s.viewers[id]].(status := Displaced)] else s.objs;
      s.(viewers := s.viewers[id := obj], objs := objs[obj := objs[obj].(id := id, status := Live)])
  }

  predicate Removable(s: Switch, id: string, want: Option<nat>) {
    id in s.viewers && (want.Some? ==> s.viewers[id] == want.value)
  }

  function RemoveViewerStep(s: Switch, id: string, want: Option<nat>): Switch
    requires Valid(s)
  {
    if !Removable(s, id, want) then s
    else
      var obj := s.viewers[id];
      s.(viewers := s.viewers - {id}, objs := s.objs[obj := s.objs[obj].(status := Closing)])
  }

  function FoldStep(s: Switch, obj: nat): Switch {
    if obj >= |s.objs| || s.objs[obj].status != Closing then s
    else s.(objs := s.objs[obj := s.objs[obj].(status := Folded)],
            closed := Fold(s.closed, s.objs[obj].billing, s.objs[obj].bytes))
  }

  function SwitchTo(v: ViewerObj, to: string): ViewerObj {
    if v.Closed() then v
    else v.(current := to, billing := if IsProgrammeSourceID(to) then to else v.billing)
  }

  function SwitchViewerStep(s: Switch, id: string, to: string): Switch
    requires Valid(s)
  {
    if id !in s.viewers || to !in s.sources then s
    else s.(objs := s.objs[s.viewers[id] := SwitchTo(s.objs[s.viewers[id]], to)])
  }

  /** writeTrack, on a viewer that has been registered: on its counter, or, when a
      write outlives the drain and comes after the fold, where no poll will see it. */
  function MeterStep(s: Switch, obj: nat, size: nat): Switch {
    if obj >= |s.objs| || s.objs[obj].status == New then s
    else if s.objs[obj].status == Folded then s.(late := s.late + size, metered := s.metered + size)
    else s.(objs := s.objs[obj := s.objs[obj].(bytes := s.objs[obj].bytes + size)], metered := s.metered + size)
  }

  function Step(s: Switch, a: Action): Switch
    requires Valid(s)
  {
    match a
    case AddSource(id, src) => s.(sources := s.sources[id := src])
    case RemoveSource(id, want) => RemoveSourceStep(s, id, want)
    case NewViewer => s.(objs := s.objs + [ViewerObj("", New, "", "", 0)])
    case AddViewer(id, obj) => AddViewerStep(s, id, obj)
    case RemoveViewer(id, want) => RemoveViewerStep(s, id, want)
    case FoldViewer(obj) => FoldStep(s, obj)
    case SwitchViewer(id, to) => SwitchViewerStep(s, id, to)
    case Meter(obj, size) => MeterStep(s, obj, size)
  }

  /** The registered viewers are exactly the live objects, each under its own id. */
  predicate Valid(s: Switch) {
    && (forall id <- s.viewers :: Registered(s, id, s.viewers[id]))
    && (forall i :: 0 <= i < |s.objs| ==> ObjInv(s.viewers, s.objs[i], i))
  }

  predicate Registered(s: Switch, id: string, i: nat) {
    i < |s.objs| && s.objs[i].status == Live && s.objs[i].id == id
  }

  predicate ObjInv(viewers: map<string, nat>, v: ViewerObj, i: nat) {
    && (v.status == Live ==> v.id in viewers && viewers[v.id] == i)
    && (v.status == New ==> v.current == "" && v.billing == "" && v.bytes == 0)
  }

  lemma AddViewerKeepsValid(s: Switch, id: string, obj: nat)
    requires Valid(s)
    ensures Valid(AddViewerStep(s, id, obj))
  {
    if Registrable(s, obj) {
      var t := AddViewerStep(s, id, obj);
      forall i | 0 <= i < |t.objs|
        ensures ObjInv(t.viewers, t.objs[i], i)
      {
        assert ObjInv(s.viewers, s.objs[i], i);
      }
    }
  }

  lemma RemoveViewerKeepsValid(s: Switch, id: string, want: Option<nat>)
    requires Valid(s)
    ensures Valid(RemoveViewerStep(s, id, want))
  {
    if Removable(s, id, want) {
      var t := RemoveViewerStep(s, id, want);
      assert Registered(s, id, s.viewers[id]);
      forall i | 0 <= i < |t.objs|
        ensures ObjInv(t.viewers, t.objs[i], i)
      {
        assert ObjInv(s.viewers, s.objs[i], i);
      }
    }
  }

  lemma FoldKeepsValid(s: Switch, obj: nat)
    requires Valid(s)
    ensures Valid(FoldStep(s, obj))
  {
    var t := FoldStep(s, obj);
    forall id <- t.viewers
      ensures Registered(t, id, t.viewers[id])
    {
      assert Registered(s, id, s.viewers[id]);
    }
    forall i | 0 <= i < |t.objs|
      ensures ObjInv(t.viewers, t.objs[i], i)
    {
      assert ObjInv(s.viewers, s.objs[i], i);
    }
  }

  /** A step that changes neither the map nor any object's status, id or newness. */
  lemma QuietKeepsValid(s: Switch, t: Switch)
    requires Valid(s) && t.viewers == s.viewers && |t.objs| >= |s.objs|
    requires forall i :: 0 <= i < |s.objs| ==>
               && t.objs[i].status == s.objs[i].status && t.objs[i].id == s.objs[i].id
               && (s.objs[i].status == New ==> t.objs[i] == s.objs[i])
    requires forall i :: |s.objs| <= i < |t.objs| ==> t.objs[i] == ViewerObj("", New, "", "", 0)
    ensures Valid(t)
  {
    forall id <- t.viewers
      ensures Registered(t, id, t.viewers[id])
    {
      assert Registered(s, id, s.viewers[id]);
    }
    forall i | 0 <= i < |t.objs|
      ensures ObjInv(t.viewers, t.objs[i], i)
    {
      if i < |s.objs| {
        assert ObjInv(s.viewers, s.objs[i], i);
      }
    }
  }

  lemma StepKeepsValid(s: Switch, a: Action)
    requires Valid(s)
    ensures Valid(Step(s, a))
  {
    match a
    case AddViewer(id, obj) => AddViewerKeepsValid(s, id, obj);
    case RemoveViewer(id, want) => RemoveViewerKeepsValid(s, id, want);
    case FoldViewer(obj) => FoldKeepsValid(s, obj);
    case SwitchViewer(id, to) =>
      if id in s.viewers {
        assert Registered(s, id, s.viewers[id]);
      }
      QuietKeepsValid(s, Step(s, a));
    case _ => QuietKeepsValid(s, Step(s, a));
  }

  function Exec(acts: seq<Action>): (s: Switch)
    ensures Valid(s)
  {
    if acts == [] then EMPTY
    else
      var s := Exec(acts[..|acts| - 1]);
      StepKeepsValid(s, acts[|acts| - 1]);
      Step(s, acts[|acts| - 1])
  }

  lemma ExecLast(acts: seq<Action>, more: seq<Action>)
    requires more != []
    ensures Exec(acts + more) == Step(Exec(acts + more[..|more| - 1]), more[|more| - 1])
  {
    ConcatLast(acts, more);
  }

  // ---------------------------------------------------------------------------
  // Routing
  // ---------------------------------------------------------------------------

  predicate RoutedAt(s: Switch, v: nat) {
    v < |s.objs| && (s.objs[v].current == "" || s.objs[v].current in s.sources)
  }

  predicate Routed(s: Switch) {
    forall id <- s.viewers :: RoutedAt(s, s.viewers[id])
  }

  lemma RoutedStays(s: Switch, a: Action, id: string)
    requires Valid(s) && Routed(s) && id in Step(s, a).viewers && !a.AddViewer?
    ensures RoutedAt(Step(s, a), Step(s, a).viewers[id])
  {
    assert Registered(s, id, s.viewers[id]) && RoutedAt(s, s.viewers[id]);
    if a.RemoveViewer? || a.SwitchViewer? {
      assert a.id in s.viewers ==> Registered(s, a.id, s.viewers[a.id]);
    }
  }

  lemma JoinerIsRouted(s: Switch, id: string, obj: nat, other: string)
    requires Valid(s) && Routed(s) && other in AddViewerStep(s, id, obj).viewers
    ensures RoutedAt(AddViewerStep(s, id, obj), AddViewerStep(s, id, obj).viewers[other])
  {
    assert id in s.viewers ==> Registered(s, id, s.viewers[id]);
    if other in s.viewers {
      assert Registered(s, other, s.viewers[other]) && RoutedAt(s, s.viewers[other]);
    }
    if obj < |s.objs| {
      assert ObjInv(s.viewers, s.objs[obj], obj);
    }
  }

  lemma RoutedStep(s: Switch, a: Action)
    requires Valid(s) && Routed(s)
    ensures Routed(Step(s, a))
  {
    forall id <- Step(s, a).viewers
      ensures RoutedAt(Step(s, a), Step(s, a).viewers[id])
    {
      if a.AddViewer? {
        JoinerIsRouted(s, a.id, a.obj, id);
      } else {
        RoutedStays(s, a, id);
      }
    }
  }

  /** In every reachable state each registered viewer's current source is empty or
      registered; once a source is gone no registered viewer names it. */
  lemma {:induction false} EveryViewerIsRouted(acts: seq<Action>)
    ensures Routed(Exec(acts))
  {
    if acts != [] {
      EveryViewerIsRouted(acts[..|acts| - 1]);
      RoutedStep(Exec(acts[..|acts| - 1]), acts[|acts| - 1]);
    }
  }

  lemma RemovedSourceIsNamedByNobody(acts: seq<Action>, id: string)
    requires id != ""
    ensures var s := Exec(acts + [RemoveSource(id, None)]);
            && id !in s.sources
            && forall v <- s.viewers :: s.viewers[v] < |s.objs| && s.objs[s.viewers[v]].current != id
  {
    var all := acts + [RemoveSource(id, None)];
    assert all[..|all| - 1] == acts;
    EveryViewerIsRouted(all);
  }

  // ---------------------------------------------------------------------------
  // Ownership: compare-and-delete
  // ---------------------------------------------------------------------------

  /** A conditional removal that finds somebody else under the id changes nothing.
      One that finds its own source takes exactly that one away and changes no viewer
      but those watching it, which keep their billing and their bytes; one that finds
      its own viewer changes no other viewer and no source. */
  lemma ConditionalRemovalTouchesOnlyItsOwn(acts: seq<Action>, id: string, want: nat)
    ensures var s := Exec(acts);
            var t := Step(s, RemoveSource(id, Some(want)));
            if id !in s.sources || s.sources[id] != want then t == s
            else
              && t.sources == s.sources - {id} && t.stopped == s.stopped + {want}
              && t.viewers == s.viewers && t.closed == s.closed && |t.objs| == |s.objs|
              && (forall i :: 0 <= i < |s.objs| ==>
                    t.objs[i] == if s.objs[i].status == Live && s.objs[i].current == id then s.objs[i].(current := "")
                                 else s.objs[i])
              && (forall v <- s.viewers :: s.viewers[v] < |t.objs| && (id != "" ==> t.objs[s.viewers[v]].current != id))
    ensures var s := Exec(acts);
            var t := Step(s, RemoveViewer(id, Some(want)));
            if id !in s.viewers || s.viewers[id] != want then t == s
            else
              && t.viewers == s.viewers - {id} && t.sources == s.sources && t.stopped == s.stopped && t.closed == s.closed
              && |t.objs| == |s.objs| && (forall i :: 0 <= i < |s.objs| && i != want ==> t.objs[i] == s.objs[i])
  {
    var s := Exec(acts);
    forall v <- s.viewers
      ensures Registered(s, v, s.viewers[v])
    {
    }
  }

  /** The actions that name viewer object `obj`, registered under `id`, as the one
      to go: an unconditional removal of its id, a conditional one asking for it, or
      another registration of its id. */
  predicate Targets(a: Action, id: string, obj: nat) {
    || (a.RemoveViewer? && a.id == id && (a.want.None? || a.want.value == obj))
    || (a.AddViewer? && a.id == id)
  }

  lemma UntargetedStays(s: Switch, a: Action, id: string, obj: nat)
    requires Valid(s) && id in s.viewers && s.viewers[id] == obj && !Targets(a, id, obj)
    ensures var t := Step(s, a); id in t.viewers && t.viewers[id] == obj && Registered(t, id, obj)
  {
    StepKeepsValid(s, a);
    var t := Step(s, a);
    assert id in t.viewers ==> Registered(t, id, t.viewers[id]);
  }

  /** However late and in whatever order other viewers' cleanup callbacks arrive, a
      viewer stays registered and open until an action names it: a stale callback
      never harms its successor under the same id. */
  lemma {:induction false} OnlyNamedViewersGo(acts: seq<Action>, more: seq<Action>, id: string, obj: nat)
    requires var s := Exec(acts); id in s.viewers && s.viewers[id] == obj
    requires forall k :: 0 <= k < |more| ==> !Targets(more[k], id, obj)
    ensures var t := Exec(acts + more); id in t.viewers && t.viewers[id] == obj && Registered(t, id, obj)
  {
    if more == [] {
      assert acts + more == acts;
      assert Registered(Exec(acts), id, obj);
    } else {
      var n := |more| - 1;
      OnlyNamedViewersGo(acts, more[..n], id, obj);
      ExecLast(acts, more);
      UntargetedStays(Exec(acts + more[..n]), more[n], id, obj);
    }
  }

  /** The actions that may stop or replace source object `src` under `id`: a removal
      of an id it is registered under, unless it asks for another object, or another
      registration of `id`. */
  predicate TargetsSource(s: Switch, a: Action, id: string, src: nat) {
    || (a.RemoveSource? && a.id in s.sources && s.sources[a.id] == src && (a.wantSrc.None? || a.wantSrc.value == src))
    || (a.AddSource? && a.id == id)
  }

  /** No action of `more` targets the source in the state it is taken in. */
  predicate SourceUntargeted(acts: seq<Action>, more: seq<Action>, id: string, src: nat) {
    more == [] ||
    (var n := |more| - 1;
     && SourceUntargeted(acts, more[..n], id, src)
     && !TargetsSource(Exec(acts + more[..n]), more[n], id, src))
  }

  lemma UntargetedSourceStays(s: Switch, a: Action, id: string, src: nat)
    requires Valid(s) && id in s.sources && s.sources[id] == src && src !in s.stopped && !TargetsSource(s, a, id, src)
    ensures var t := Step(s, a); id in t.sources && t.sources[id] == src && src !in t.stopped
  {
  }

  /** The same for sources: through registrations and removals of other ids, and
      removals that ask for another object, a source stays registered and running. */
  lemma {:induction false} OnlyNamedSourcesStop(acts: seq<Action>, more: seq<Action>, id: string, src: nat)
    requires var s := Exec(acts); id in s.sources && s.sources[id] == src && src !in s.stopped
    requires SourceUntargeted(acts, more, id, src)
    ensures var t := Exec(acts + more); id in t.sources && t.sources[id] == src && src !in t.stopped
  {
    if more == [] {
      assert acts + more == acts;
    } else {
      var n := |more| - 1;
      OnlyNamedSourcesStop(acts, more[..n], id, src);
      ExecLast(acts, more);
      UntargetedSourceStays(Exec(acts + more[..n]), more[n], id, src);
    }
  }

  // ---------------------------------------------------------------------------
  // Who watches what
  // ---------------------------------------------------------------------------

  /** Registering an id hands it over and stops nobody. */
  lemma RegistrationTakesTheId(s: Switch, id: string, src: nat)
    requires Valid(s)
    ensures var t := Step(s, AddSource(id, src));
            && id in t.sources && t.sources[id] == src
            && (forall other <- s.sources :: other != id ==> other in t.sources && t.sources[other] == s.sources[other])
            && (forall other <- t.sources :: other == id || other in s.sources)
            && t.stopped == s.stopped && t.viewers == s.viewers && t.objs == s.objs
  {
  }

  /** A viewer routed to a registered source watches it, whatever it watched before,
      and nobody else notices. */
  lemma RoutedViewerWatches(s: Switch, id: string, to: string)
    requires Valid(s) && id in s.viewers && to in s.sources
    ensures var t, v := Step(s, SwitchViewer(id, to)), s.viewers[id];
            && v < |s.objs| == |t.objs| && t.objs[v].current == to
            && t.objs[v].bytes == s.objs[v].bytes && t.objs[v].status == Live
            && (forall i :: 0 <= i < |s.objs| && i != v ==> t.objs[i] == s.objs[i])
            && t.viewers == s.viewers && t.sources == s.sources && t.stopped == s.stopped && t.closed == s.closed
  {
    assert Registered(s, id, s.viewers[id]);
  }

  /** Step `a` routes viewer `v` to a registered source. */
  predicate Routes(s: Switch, a: Action, v: nat) {
    a.SwitchViewer? && a.id in s.viewers && s.viewers[a.id] == v && a.to in s.sources
  }

  /** Step `a` takes source `src` away. */
  predicate Removes(s: Switch, a: Action, src: string) {
    && a.RemoveSource? && a.id == src && src in s.sources
    && (a.wantSrc.None? || a.wantSrc.value == s.sources[src])
  }

  /** The last step that routed the viewer. */
  function LastRoute(acts: seq<Action>, v: nat): (k: Option<nat>)
    ensures k.Some? ==> k.value < |acts| && acts[k.value].SwitchViewer?
  {
    if acts == [] then None
    else
      var n := |acts| - 1;
      if Routes(Exec(acts[..n]), acts[n], v) then Some(n) else LastRoute(acts[..n], v)
  }

  /** After step `k`, some step took source `src` away. */
  predicate RemovedSince(acts: seq<Action>, k: nat, src: string) {
    |acts| > k + 1 &&
    (var n := |acts| - 1;
     RemovedSince(acts[..n], k, src) || Removes(Exec(acts[..n]), acts[n], src))
  }

  function Watched(acts: seq<Action>, v: nat): string {
    var k := LastRoute(acts, v);
    if k.None? || RemovedSince(acts, k.value, acts[k.value].to) then "" else acts[k.value].to
  }

  lemma WatchedStep(s: Switch, a: Action, v: nat)
    requires Valid(s) && v < |Step(s, a).objs| && Step(s, a).objs[v].status == Live
    ensures v < |s.objs| && (s.objs[v].status == Live || (s.objs[v].status == New && s.objs[v].current == ""))
    ensures Step(s, a).objs[v].current
         == if Routes(s, a, v) then a.to
            else if s.objs[v].status == Live && Removes(s, a, s.objs[v].current) then "" else s.objs[v].current
  {
    if v < |s.objs| {
      assert ObjInv(s.viewers, s.objs[v], v);
    }
    match a
    case AddViewer(id, _) => assert id in s.viewers ==> Registered(s, id, s.viewers[id]);
    case RemoveViewer(id, _) => assert id in s.viewers ==> Registered(s, id, s.viewers[id]);
    case SwitchViewer(id, _) => assert id in s.viewers ==> Registered(s, id, s.viewers[id]);
    case _ =>
  }

  /** A viewer that is not registered has never been routed. */
  lemma {:induction false} NewIsUnrouted(acts: seq<Action>, v: nat)
    requires v >= |Exec(acts).objs| || Exec(acts).objs[v].status == New
    ensures LastRoute(acts, v) == None
  {
    if acts != [] {
      var n := |acts| - 1;
      var s, a := Exec(acts[..n]), acts[n];
      assert a.SwitchViewer? && a.id in s.viewers ==> Registered(s, a.id, s.viewers[a.id]);
      NewStays(s, a, v);
      NewIsUnrouted(acts[..n], v);
    }
  }

  lemma NewStays(s: Switch, a: Action, v: nat)
    requires Valid(s) && (v >= |Step(s, a).objs| || Step(s, a).objs[v].status == New)
    ensures v >= |s.objs| || s.objs[v].status == New
    ensures !Routes(s, a, v)
  {
    match a
    case AddViewer(id, _) => assert id in s.viewers ==> Registered(s, id, s.viewers[id]);
    case RemoveViewer(id, _) => assert id in s.viewers ==> Registered(s, id, s.viewers[id]);
    case SwitchViewer(id, _) => assert id in s.viewers ==> Registered(s, id, s.viewers[id]);
    case _ =>
  }

  /** Over every run, a registered viewer watches the source it was last routed to,
      or nothing if it never was or if that source has been removed since. */
  lemma {:induction false} ViewerWatchesItsLastRoute(acts: seq<Action>, v: nat)
    requires v < |Exec(acts).objs| && Exec(acts).objs[v].status == Live
    ensures Exec(acts).objs[v].current == Watched(acts, v)
  {
    if acts != [] {
      var n := |acts| - 1;
      var init, s, a := acts[..n], Exec(acts[..n]), acts[n];
      WatchedStep(s, a, v);
      if s.objs[v].status == Live {
        ViewerWatchesItsLastRoute(init, v);
      } else {
        NewIsUnrouted(init, v);
      }
    }
  }

  // ---------------------------------------------------------------------------
  // A viewer joins
  // ---------------------------------------------------------------------------

  function Joined(s: Switch, id: string): (t: Switch)
    requires Valid(s)
    ensures Valid(t)
  {
    StepKeepsValid(s, NewViewer);
    var made := Step(s, NewViewer);
    StepKeepsValid(made, AddViewer(id, |s.objs|));
    Step(made, AddViewer(id, |s.objs|))
  }

  function Admitted(s: Switch, id: string, source: string): Switch
    requires Valid(s)
  {
    if source == "" then Joined(s, id) else Step(Joined(s, id), SwitchViewer(id, source))
  }

  lemma JoinedMeans(s: Switch, id: string)
    requires Valid(s)
    ensures var t := Joined(s, id);
            && t.viewers == s.viewers[id := |s.objs|] && t.sources == s.sources && t.closed == s.closed
            && |t.objs| == |s.objs| + 1 && t.objs[|s.objs|] == ViewerObj(id, Live, "", "", 0)
            && forall i :: 0 <= i < |s.objs| ==>
                 t.objs[i] == if id in s.viewers && s.viewers[id] == i then s.objs[i].(status := Displaced) else s.objs[i]
  {
    assert id in s.viewers ==> Registered(s, id, s.viewers[id]);
  }

  /** The new viewer has the id, watches the source asked for if there is one, and is
      billed to it if it is a programme; the viewer that had the id is displaced with
      its bytes, and nobody else notices. */
  lemma AdmittedMeans(s: Switch, id: string, source: string)
    requires Valid(s)
    ensures var t, n := Admitted(s, id, source), |s.objs|;
            && t.viewers == s.viewers[id := n] && t.sources == s.sources && t.closed == s.closed && |t.objs| == n + 1
            && t.objs[n].status == Live && t.objs[n].bytes == 0
            && t.objs[n].current == (if source in s.sources then source else "")
            && t.objs[n].billing == (if source in s.sources && IsProgrammeSourceID(source) then source else "")
            && forall i :: 0 <= i < n ==>
                 t.objs[i] == if id in s.viewers && s.viewers[id] == i then s.objs[i].(status := Displaced) else s.objs[i]
  {
    JoinedMeans(s, id);
  }

  // ---------------------------------------------------------------------------
  // The switch
  // ---------------------------------------------------------------------------

  class MediaSwitch {
    var sources: map<string, nat>
    var viewers: map<string, nat>
    var objs: seq<ViewerObj>
    var stopped: set<nat>
    var closedEgress: map<string, nat>
    ghost var late: nat
    ghost var metered: nat

    ghost function View(): Switch
      reads this
    {
      Switch(sources, viewers, objs, stopped, closedEgress, late, metered)
    }

    constructor ()
      ensures View() == EMPTY && Valid(View())
    {
      sources, viewers, objs, stopped, closedEgress := map[], map[], [], {}, map[];
      late, metered := 0, 0;
    }

    method Register(id: string, src: nat)
      requires Valid(View())
      modifies `sources
      ensures View() == Step(old(View()), AddSource(id, src))
    {
      sources := sources[id := src];
    }

    /** removeSource; `want` is None for "whatever is there". The viewers are walked
        in any order. */
    method Unregister(id: string, want: Option<nat>)
      requires Valid(View())
      modifies `sources, `stopped, `objs
      ensures View() == Step(old(View()), RemoveSource(id, want))
    {
      if id !in sources {
        return;
      }
      if want.Some? && sources[id] != want.value {
        return;
      }
      stopped := stopped + {sources[id]};
      sources := sources - {id};
      DetachViewers(id);
    }

    method DetachViewers(id: string)
      requires Valid(View())
      modifies `objs
      ensures objs == DetachAll(old(objs), id)
    {
      ghost var before, done := objs, {};
      var todo := viewers.Keys;
      while todo != {}
        invariant todo <= viewers.Keys && done == viewers.Keys - todo
        invariant |objs| == |before|
        invariant forall i :: 0 <= i < |objs| ==>
                    objs[i] == if before[i].status == Live && before[i].id in done then Detach(before[i], id) else before[i]
        decreases todo
      {
        var k :| k in todo;
        assert Registered(old(View()), k, viewers[k]);
        var v := viewers[k];
        if objs[v].current == id {
          objs := objs[v := objs[v].(current := "")];
        }
        todo, done := todo - {k}, done + {k};
      }
      forall i | 0 <= i < |before|
        ensures before[i].status == Live ==> before[i].id in done
      {
        assert ObjInv(viewers, before[i], i);
      }
    }

    method MakeViewer() returns (obj: nat)
      requires Valid(View())
      modifies `objs
      ensures View() == Step(old(View()), NewViewer)
      ensures obj == |old(objs)|
    {
      obj := |objs|;
      objs := objs + [ViewerObj("", New, "", "", 0)];
    }

    /** Any viewer object can be put under any id, displacing whoever was there; the
        switch is stepped with new ones, and with the one already there. */
    method RegisterViewer(id: string, obj: nat)
      requires Valid(View()) && obj < |objs|
      modifies `viewers, `objs
      ensures viewers == old(viewers)[id := obj] && |objs| == |old(objs)|
      ensures forall i :: 0 <= i < |objs| && i != obj ==>
                objs[i] == if id in old(viewers) && old(viewers)[id] == i then old(objs)[i].(status := Displaced)
                           else old(objs)[i]
      ensures Registrable(old(View()), obj) || (id in old(viewers) && old(viewers)[id] == obj) ==>
                View() == Step(old(View()), AddViewer(id, obj))
    {
      assert id in viewers ==> Registered(View(), id, viewers[id]);
      if id in viewers && viewers[id] != obj {
        objs := objs[viewers[id] := objs[viewers[id]].(status := Displaced)];
      }
      viewers := viewers[id := obj];
      if objs[obj].status == New {
        objs := objs[obj := objs[obj].(id := id, status := Live)];
      }
    }

    /** removeViewer's critical section. */
    method TakeViewer(id: string, want: Option<nat>) returns (gone: Option<nat>)
      requires Valid(View())
      modifies `viewers, `objs
      ensures View() == Step(old(View()), RemoveViewer(id, want))
      ensures gone.Some? <==> Removable(old(View()), id, want)
      ensures gone.Some? ==> gone.value == old(viewers)[id]
    {
      if id !in viewers || (want.Some? && viewers[id] != want.value) {
        return None;
      }
      assert Registered(View(), id, viewers[id]);
      gone := Some(viewers[id]);
      viewers := viewers - {id};
      objs := objs[gone.value := objs[gone.value].(status := Closing)];
    }

    /** The rest of removeViewer: read the counter, add it to the closed totals. */
    method FoldEgress(obj: nat)
      requires Valid(View()) && obj < |objs| && objs[obj].status == Closing
      modifies `objs, `closedEgress
      ensures View() == Step(old(View()), FoldViewer(obj))
    {
      objs := objs[obj := objs[obj].(status := Folded)];
      RecordClosedViewerEgress(objs[obj].billing, objs[obj].bytes);
    }

    /** removeViewer with nothing in between. */
    method UnregisterViewer(id: string, want: Option<nat>)
      requires Valid(View())
      modifies `viewers, `objs, `closedEgress
      ensures Valid(Step(old(View()), RemoveViewer(id, want)))
      ensures View() == if Removable(old(View()), id, want)
                        then Step(Step(old(View()), RemoveViewer(id, want)), FoldViewer(old(viewers)[id]))
                        else old(View())
    {
      assert id in viewers ==> Registered(View(), id, viewers[id]);
      StepKeepsValid(View(), RemoveViewer(id, want));
      var gone := TakeViewer(id, want);
      if gone.Some? {
        FoldEgress(gone.value);
      }
    }

    method RecordClosedViewerEgress(billing: string, bytes: nat)
      modifies `closedEgress
      ensures closedEgress == Fold(old(closedEgress), billing, bytes)
    {
      if billing == "" || bytes == 0 {
        return;
      }
      var sofar := if billing in closedEgress then closedEgress[billing] else 0;
      closedEgress := closedEgress[billing := sofar + bytes];
    }

    method Route(id: string, to: string) returns (ok: bool)
      requires Valid(View())
      modifies `objs
      ensures View() == Step(old(View()), SwitchViewer(id, to))
      ensures ok <==> id in viewers && to in sources
    {
      if id !in viewers || to !in sources {
        return false;
      }
      assert Registered(View(), id, viewers[id]);
      var v := objs[viewers[id]];
      if !v.Closed() {
        v := v.(current := to);
        if PROGRAMME_PREFIX <= to {
          v := v.(billing := to);
        }
      }
      objs := objs[viewers[id] := v];
      ok := true;
    }

    /** The request that makes a viewer: registered only once its offer has been
        answered, then routed. */
    method AdmitViewer(id: string, source: string, answered: bool) returns (obj: nat)
      requires Valid(View())
      modifies `objs, `viewers
      ensures obj == |old(objs)|
      ensures View() == if answered then Admitted(old(View()), id, source) else Step(old(View()), NewViewer)
    {
      StepKeepsValid(View(), NewViewer);
      obj := MakeViewer();
      if !answered {
        return;
      }
      StepKeepsValid(View(), AddViewer(id, obj));
      RegisterViewer(id, obj);
      if source != "" {
        var routed := Route(id, source);
      }
    }

    method WriteTrack(obj: nat, size: nat)
      requires Valid(View())
      requires obj < |objs| && objs[obj].status != New
      modifies `objs, `late, `metered
      ensures View() == Step(old(View()), Meter(obj, size))
    {
      if objs[obj].status == Folded {
        late := late + size;
      } else {
        objs := objs[obj := objs[obj].(bytes := objs[obj].bytes + size)];
      }
      metered := metered + size;
    }
  }
}
