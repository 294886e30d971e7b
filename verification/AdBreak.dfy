// The ad-break protocol: a timer and the client's skip or complete event race for
// one table entry, while the fleet may move the viewer at any moment.
//
// Every await is a step boundary: taking the entry, reading the viewer's binding,
// fetching the node's client, waiting out the minimum view time, sending.
module AdBreak {
  import opened Media

  type Token = nat
  type ViewerId = nat
  type NodeId = nat

  // ---------------------------------------------------------------------------
  // The pool and the affinity check
  // ---------------------------------------------------------------------------

  datatype Pool = Pool(nodes: set<NodeId>, bindings: map<ViewerId, NodeId>)
  {
    /** The node holding this viewer; None is the origin. */
    function NodeOf(v: ViewerId): Option<NodeId> {
      if v in bindings then Some(bindings[v]) else None
    }

    predicate HasClient(node: Option<NodeId>) {
      node.None? || node.value in nodes
    }

    /** Where a viewer-scoped call goes, and whether it may be billed. */
    function Route(v: ViewerId): (Option<NodeId>, bool) {
      if v in bindings && bindings[v] in nodes then (Some(bindings[v]), true) else (None, nodes == {})
    }
  }

  datatype AdSwitchError =
    | NodeAffinityMismatch(expected: Option<NodeId>, actual: Option<NodeId>)
    | NodeGone(node: NodeId)

  datatype Resolved = Client(node: Option<NodeId>) | Refused(error: AdSwitchError)

  function ResolveSwitchBack(pool: Pool, v: ViewerId, setUpOn: Option<NodeId>): Resolved {
    if pool.NodeOf(v) != setUpOn then Refused(NodeAffinityMismatch(setUpOn, pool.NodeOf(v)))
    else if pool.HasClient(setUpOn) then Client(setUpOn)
    else Refused(NodeGone(if setUpOn.Some? then setUpOn.value else 0))
  }

  datatype Reason = Unplaced | Moved | NodeGoneReason

  function ReasonOf(e: AdSwitchError): Reason {
    match e
    case NodeAffinityMismatch(_, None) => Unplaced
    case NodeAffinityMismatch(_, Some(_)) => Moved
    case NodeGone(_) => NodeGoneReason
  }

  /** A client is resolved exactly when the viewer is bound where the ad was set up
      and that node is known; the origin is never refused for being gone; and a
      binding lost with its node reads as unplaced, not as a move to the origin. */
  lemma ResolveIff(pool: Pool, v: ViewerId, setUpOn: Option<NodeId>)
    ensures var r := ResolveSwitchBack(pool, v, setUpOn);
            && (r.Client? <==> pool.NodeOf(v) == setUpOn && pool.HasClient(setUpOn))
            && (r.Client? ==> r.node == setUpOn)
            && (r.Refused? ==>
                  && (ReasonOf(r.error) == Unplaced <==> v !in pool.bindings)
                  && (ReasonOf(r.error) == NodeGoneReason <==> setUpOn.Some? && pool.NodeOf(v) == setUpOn)
                  && (r.error.NodeGone? ==> setUpOn == Some(r.error.node)))
  {
  }

  /** A viewer-scoped call goes to the node that holds the viewer if that node is
      known, and may be billed; else to the origin, billed only if there is no fleet. */
  lemma RouteMeans(pool: Pool, v: ViewerId)
    ensures var placed := v in pool.bindings && pool.bindings[v] in pool.nodes;
            && (pool.Route(v).0.Some? <==> placed) && (placed ==> pool.Route(v).0.value == pool.bindings[v])
            && (pool.Route(v).1 <==> placed || pool.nodes == {})
  {
  }

  /** A billable route on a node passes the check as long as nothing has moved. */
  lemma RouteThenResolve(pool: Pool, v: ViewerId)
    requires pool.Route(v).1
    ensures ResolveSwitchBack(pool, v, pool.Route(v).0).Client? <==> pool.Route(v).0.Some? || v !in pool.bindings
  {
  }

  // ---------------------------------------------------------------------------
  // The protocol
  // ---------------------------------------------------------------------------

  const MIN_DURATION := 30
  const GRACE := 10

  datatype Entry = Entry(viewer: ViewerId, node: Option<NodeId>, startedAt: nat)

  /** The spawned task of one ad: the ad's stated length, and when it wakes. */
  datatype Timer = Timer(duration: nat, fireAt: nat, fired: bool)

  /** How far the goroutine that took an entry has got. `seenAt` is the step at
      which it read the viewer's binding, `fetchedAt` the one at which it got the
      node's client and read the configuration. */
  datatype Phase =
    | Taken
    | Matched(seenAt: nat)
    | Cleared(seenAt: nat, fetchedAt: nat, minView: nat)
    | Finished

  datatype Task = Task(token: Token, entry: Entry, byTimer: bool, phase: Phase)

  datatype SwitchBack = SwitchBack(
    token: Token, viewer: ViewerId, node: Option<NodeId>, at: nat, byTimer: bool, minView: nat,
    seenAt: nat, fetchedAt: nat, sentAt: nat)

  datatype Sys = Sys(
    steps: nat, now: nat, minView: nat, pool: Pool,
    table: map<Token, Entry>,     // ad_switches
    setups: map<Token, Entry>,    // every entry ever inserted
    timers: map<Token, Timer>, tasks: seq<Task>, sent: seq<SwitchBack>)

  const START: Sys := Sys(0, 0, 0, Pool({}, map[]), map[], map[], map[], [], [])

  datatype Action =
    | Tick(secs: nat) | Configure(minViewSecs: nat)
    | Bind(v: ViewerId, n: NodeId) | Unbind(v: ViewerId) | Upsert(n: NodeId) | RemoveNode(n: NodeId) | DropBindings(n: NodeId)
    | SetUp(token: Token, viewer: ViewerId, node: Option<NodeId>, duration: nat)
    | Fire(timer: Token) | EndEvent(ended: Token)
    | Check(task: nat) | Fetch(task: nat) | Send(task: nat)

  function Max(a: nat, b: nat): nat {
    if a > b then a else b
  }

  /** The fleet's side. */
  function Move(p: Pool, a: Action): Pool {
    match a
    case Bind(v, n) => p.(bindings := p.bindings[v := n])
    case Unbind(v) => p.(bindings := p.bindings - {v})
    case Upsert(n) => p.(nodes := p.nodes + {n})
    case RemoveNode(n) => p.(nodes := p.nodes - {n})
    case DropBindings(n) => p.(bindings := map v | v in p.bindings && p.bindings[v] != n :: p.bindings[v])
    case _ => p
  }

  /** What the fleet's steps mean for one viewer and one node. */
  lemma FleetSteps(p: Pool, v: ViewerId, n: NodeId, w: ViewerId, m: NodeId)
    ensures Move(p, Bind(v, n)).NodeOf(v) == Some(n) && Move(p, Unbind(v)).NodeOf(v) == None
    ensures w != v ==> Move(p, Bind(v, n)).NodeOf(w) == p.NodeOf(w) && Move(p, Unbind(v)).NodeOf(w) == p.NodeOf(w)
    ensures Move(p, Upsert(n)).HasClient(Some(n)) && !Move(p, RemoveNode(n)).HasClient(Some(n))
    ensures m != n ==> Move(p, Upsert(n)).HasClient(Some(m)) == p.HasClient(Some(m))
                       && Move(p, RemoveNode(n)).HasClient(Some(m)) == p.HasClient(Some(m))
    ensures Move(p, DropBindings(n)).NodeOf(v) == if p.NodeOf(v) == Some(n) then None else p.NodeOf(v)
    ensures Move(p, RemoveNode(n)).HasClient(None)
  {
  }

  /** Impression tokens are fresh: a token is set up once. */
  function SetUpStep(s: Sys, token: Token, viewer: ViewerId, node: Option<NodeId>, duration: nat): Sys {
    if token in s.setups then s
    else
      var e := Entry(viewer, node, s.now);
      s.(table := s.table[token := e], setups := s.setups[token := e],
         timers := s.timers[token := Timer(duration, s.now + Max(duration, MIN_DURATION) + GRACE, false)])
  }

  /** Removing the entry decides the race: only the remover goes on. */
  function TakeEntry(s: Sys, token: Token, byTimer: bool): Sys {
    if token !in s.table then s
    else s.(table := s.table - {token}, tasks := s.tasks + [Task(token, s.table[token], byTimer, Taken)])
  }

  function FireStep(s: Sys, token: Token): Sys {
    if token !in s.timers || s.timers[token].fired || s.now < s.timers[token].fireAt then s
    else TakeEntry(s.(timers := s.timers[token := s.timers[token].(fired := true)]), token, true)
  }

  function At(s: Sys, k: nat, p: Phase): Sys
    requires k < |s.tasks|
  {
    s.(tasks := s.tasks[k := s.tasks[k].(phase := p)])
  }

  function CheckStep(s: Sys, k: nat): Sys {
    if k >= |s.tasks| || s.tasks[k].phase != Taken then s
    else if s.pool.NodeOf(s.tasks[k].entry.viewer) == s.tasks[k].entry.node then At(s, k, Matched(s.steps))
    else At(s, k, Finished)
  }

  function FetchStep(s: Sys, k: nat): Sys {
    if k >= |s.tasks| || !s.tasks[k].phase.Matched? then s
    else if s.pool.HasClient(s.tasks[k].entry.node)
    then At(s, k, Cleared(s.tasks[k].phase.seenAt, s.steps, if s.tasks[k].byTimer then 0 else s.minView))
    else At(s, k, Finished)
  }

  function SendStep(s: Sys, k: nat): Sys {
    if k >= |s.tasks| || !s.tasks[k].phase.Cleared? then s
    else
      var t := s.tasks[k];
      if s.now < t.entry.startedAt + t.phase.minView then s
      else At(s, k, Finished).(sent := s.sent + [SwitchBack(
            t.token, t.entry.viewer, t.entry.node, s.now, t.byTimer, t.phase.minView,
            t.phase.seenAt, t.phase.fetchedAt, s.steps)])
  }

  function Act(s: Sys, a: Action): Sys {
    match a
    case Tick(secs) => s.(now := s.now + secs)
    case Configure(secs) => s.(minView := secs)
    case SetUp(token, viewer, node, duration) => SetUpStep(s, token, viewer, node, duration)
    case Fire(token) => FireStep(s, token)
    case EndEvent(token) => TakeEntry(s, token, false)
    case Check(k) => CheckStep(s, k)
    case Fetch(k) => FetchStep(s, k)
    case Send(k) => SendStep(s, k)
    case _ => s.(pool := Move(s.pool, a))
  }

  function Step(s: Sys, a: Action): Sys {
    Act(s, a).(steps := s.steps + 1)
  }

  function Exec(acts: seq<Action>): Sys {
    if acts == [] then START else Step(Exec(acts[..|acts| - 1]), acts[|acts| - 1])
  }

  /** Setting up a fresh token, on a node or on the origin, puts its entry in the table
      beside a timer due when the ad, or 30 seconds, and 10 more are over. */
  lemma SetUpStarts(s: Sys, token: Token, viewer: ViewerId, node: Option<NodeId>, duration: nat)
    requires token !in s.setups
    ensures var t := Step(s, SetUp(token, viewer, node, duration));
            && t.table == s.table[token := Entry(viewer, node, s.now)]
            && token in t.timers && !t.timers[token].fired
            && t.timers[token].fireAt == s.now + (if duration > 30 then duration else 30) + 10
            && (forall other <- s.timers :: other != token ==> other in t.timers && t.timers[other] == s.timers[other])
            && t.tasks == s.tasks && t.sent == s.sent && t.pool == s.pool
  {
  }

  /** The clock and the configuration are set by their own steps and no other. */
  lemma ClockAndConfiguration(s: Sys, a: Action)
    ensures Step(s, a).now == s.now + if a.Tick? then a.secs else 0
    ensures Step(s, a).minView == if a.Configure? then a.minViewSecs else s.minView
  {
  }

  // ---------------------------------------------------------------------------
  // One taker per token
  // ---------------------------------------------------------------------------

  predicate TableInv(s: Sys) {
    && (forall t <- s.table :: t in s.setups && s.table[t] == s.setups[t])
    && (forall t <- s.setups :: s.setups[t].startedAt <= s.now)
    && (forall k :: 0 <= k < |s.tasks| ==>
          && s.tasks[k].token in s.setups && s.tasks[k].entry == s.setups[s.tasks[k].token]
          && s.tasks[k].token !in s.table)
    && (forall j, k :: 0 <= j < k < |s.tasks| ==> s.tasks[j].token != s.tasks[k].token)
  }

  /** A switch-back went where its token was set up, in time, and whoever took the
      token is done. */
  predicate SentOk(s: Sys, b: SwitchBack) {
    && b.token in s.setups && b.token !in s.table
    && b.viewer == s.setups[b.token].viewer && b.node == s.setups[b.token].node
    && s.setups[b.token].startedAt + b.minView <= b.at
    && (b.byTimer ==> b.token in s.timers && s.timers[b.token].fireAt <= b.at)
    && (forall k :: 0 <= k < |s.tasks| && s.tasks[k].token == b.token ==> s.tasks[k].phase == Finished)
  }

  predicate SentInv(s: Sys) {
    && (forall i :: 0 <= i < |s.sent| ==> SentOk(s, s.sent[i]))
    && (forall i, j :: 0 <= i < j < |s.sent| ==> s.sent[i].token != s.sent[j].token)
  }

  function Due(e: Entry, t: Timer): nat {
    e.startedAt + Max(t.duration, MIN_DURATION) + GRACE
  }

  /** Every entry still in the table has a timer that will take it, and a timer is
      due when the ad, or the shortest one allowed, and its grace are over. */
  predicate TimerInv(s: Sys) {
    && (forall t <- s.timers :: t in s.setups && s.timers[t].fireAt == Due(s.setups[t], s.timers[t]))
    && (forall t <- s.table :: t in s.timers && !s.timers[t].fired)
    && (forall k :: 0 <= k < |s.tasks| && s.tasks[k].byTimer ==>
          s.tasks[k].token in s.timers && s.timers[s.tasks[k].token].fireAt <= s.now)
  }

  lemma TakeKeepsTable(s: Sys, token: Token, byTimer: bool)
    requires TableInv(s)
    ensures TableInv(TakeEntry(s, token, byTimer))
  {
  }

  lemma PhaseKeepsTable(s: Sys, k: nat, p: Phase)
    requires TableInv(s) && k < |s.tasks|
    ensures TableInv(At(s, k, p))
  {
  }

  lemma SetUpKeepsTable(s: Sys, token: Token, viewer: ViewerId, node: Option<NodeId>, duration: nat)
    requires TableInv(s)
    ensures TableInv(SetUpStep(s, token, viewer, node, duration))
  {
  }

  lemma TaskKeepsTable(s: Sys, a: Action)
    requires TableInv(s) && (a.Check? || a.Fetch? || a.Send?)
    ensures TableInv(Act(s, a))
  {
    if a.task < |s.tasks| {
      PhaseKeepsTable(s, a.task, Finished);
      PhaseKeepsTable(s, a.task, Act(s, a).tasks[a.task].phase);
    }
  }

  lemma TableStep(s: Sys, a: Action)
    requires TableInv(s)
    ensures TableInv(Step(s, a))
  {
    match a
    case SetUp(token, viewer, node, duration) => SetUpKeepsTable(s, token, viewer, node, duration);
    case Fire(token) =>
      if token in s.timers {
        TakeKeepsTable(s.(timers := s.timers[token := s.timers[token].(fired := true)]), token, true);
      }
    case EndEvent(token) => TakeKeepsTable(s, token, false);
    case Check(_) => TaskKeepsTable(s, a);
    case Fetch(_) => TaskKeepsTable(s, a);
    case Send(_) => TaskKeepsTable(s, a);
    case _ =>
  }

  // ---------------------------------------------------------------------------
  // At most one switch-back
  // ---------------------------------------------------------------------------

  lemma FireKeepsTimers(s: Sys, token: Token)
    requires TableInv(s) && TimerInv(s)
    ensures TimerInv(FireStep(s, token))
  {
  }

  lemma SetUpKeepsTimers(s: Sys, token: Token, viewer: ViewerId, node: Option<NodeId>, duration: nat)
    requires TableInv(s) && TimerInv(s)
    ensures TimerInv(SetUpStep(s, token, viewer, node, duration))
  {
  }

  lemma EndKeepsTimers(s: Sys, token: Token)
    requires TimerInv(s)
    ensures TimerInv(TakeEntry(s, token, false))
  {
  }

  lemma PhaseKeepsTimers(s: Sys, k: nat, p: Phase)
    requires TimerInv(s) && k < |s.tasks|
    ensures TimerInv(At(s, k, p))
  {
  }

  lemma TaskKeepsTimers(s: Sys, a: Action)
    requires TimerInv(s) && (a.Check? || a.Fetch? || a.Send?)
    ensures TimerInv(Act(s, a))
  {
    if a.task < |s.tasks| {
      PhaseKeepsTimers(s, a.task, Finished);
      PhaseKeepsTimers(s, a.task, Act(s, a).tasks[a.task].phase);
    }
  }

  lemma TimerStep(s: Sys, a: Action)
    requires TableInv(s) && TimerInv(s)
    ensures TimerInv(Step(s, a))
  {
    match a
    case SetUp(token, viewer, node, duration) => SetUpKeepsTimers(s, token, viewer, node, duration);
    case Fire(token) => FireKeepsTimers(s, token);
    case EndEvent(token) => EndKeepsTimers(s, token);
    case Check(_) => TaskKeepsTimers(s, a);
    case Fetch(_) => TaskKeepsTimers(s, a);
    case Send(_) => TaskKeepsTimers(s, a);
    case _ =>
  }

  lemma PhaseStillOk(s: Sys, k: nat, p: Phase, b: SwitchBack)
    requires SentOk(s, b) && k < |s.tasks| && (s.tasks[k].token == b.token ==> p == Finished)
    ensures SentOk(At(s, k, p), b)
  {
  }

  lemma TaskStillOk(s: Sys, a: Action, b: SwitchBack)
    requires SentOk(s, b) && (a.Check? || a.Fetch? || a.Send?)
    ensures SentOk(Act(s, a), b)
  {
    if a.task < |s.tasks| && s.tasks[a.task].phase != Finished {
      PhaseStillOk(s, a.task, Act(s, a).tasks[a.task].phase, b);
    }
  }

  /** No step takes back what a switch-back relied on. */
  lemma StillOk(s: Sys, a: Action, b: SwitchBack)
    requires TableInv(s) && SentOk(s, b)
    ensures SentOk(Step(s, a), b)
  {
    if a.Check? || a.Fetch? || a.Send? {
      TaskStillOk(s, a, b);
    }
  }

  lemma SentStep(s: Sys, a: Action)
    requires TableInv(s) && TimerInv(s) && SentInv(s)
    ensures SentInv(Step(s, a))
  {
    var t := Step(s, a);
    forall i | 0 <= i < |s.sent|
      ensures SentOk(t, s.sent[i])
    {
      StillOk(s, a, s.sent[i]);
    }
    if |t.sent| > |s.sent| {
      assert a.Send? && t.sent == s.sent + [t.sent[|s.sent|]];
      assert s.tasks[a.task].phase.Cleared?;
      forall i | 0 <= i < |s.sent|
        ensures s.sent[i].token != s.tasks[a.task].token
      {
        assert SentOk(s, s.sent[i]);
      }
      assert SentOk(t, t.sent[|s.sent|]);
    } else {
      assert t.sent == s.sent;
    }
  }

  lemma {:induction false} Always(acts: seq<Action>)
    ensures var s := Exec(acts); TableInv(s) && TimerInv(s) && SentInv(s) && s.steps == |acts|
  {
    if acts != [] {
      var s, a := Exec(acts[..|acts| - 1]), acts[|acts| - 1];
      Always(acts[..|acts| - 1]);
      TableStep(s, a);
      TimerStep(s, a);
      SentStep(s, a);
    }
  }

  // ---------------------------------------------------------------------------
  // Where the viewer was
  // ---------------------------------------------------------------------------

  /** At step `at` of the run the viewer was bound to `node`. */
  predicate BoundAt(acts: seq<Action>, at: nat, v: ViewerId, node: Option<NodeId>) {
    at < |acts| && Exec(acts[..at]).pool.NodeOf(v) == node
  }

  /** At step `at` of the run the minimum view time was configured as `secs`. */
  predicate ConfiguredAt(acts: seq<Action>, at: nat, secs: nat) {
    at < |acts| && Exec(acts[..at]).minView == secs
  }

  predicate PastCheck(t: Task) {
    t.phase.Matched? || t.phase.Cleared?
  }

  /** At step `at` of the run there was a client for `node`. */
  predicate ClientAt(acts: seq<Action>, at: nat, node: Option<NodeId>) {
    at < |acts| && Exec(acts[..at]).pool.HasClient(node)
  }

  /** Whoever got past the affinity check saw the viewer where the ad was set up;
      then it got the node's client and, unless it is the timer, read the minimum view
      time. The steps are its own. */
  predicate TaskSaw(acts: seq<Action>, k: nat, t: Task) {
    PastCheck(t) ==>
      && BoundAt(acts, t.phase.seenAt, t.entry.viewer, t.entry.node) && acts[t.phase.seenAt] == Check(k)
      && (t.phase.Cleared? ==>
            && t.phase.seenAt < t.phase.fetchedAt && ClientAt(acts, t.phase.fetchedAt, t.entry.node)
            && acts[t.phase.fetchedAt] == Fetch(k)
            && (t.byTimer || ConfiguredAt(acts, t.phase.fetchedAt, t.phase.minView)))
  }

  /** The same of whoever sent a switch-back, and the step that sent it. */
  predicate BackSaw(acts: seq<Action>, b: SwitchBack) {
    && BoundAt(acts, b.seenAt, b.viewer, b.node) && ClientAt(acts, b.fetchedAt, b.node)
    && b.seenAt < b.fetchedAt < b.sentAt < |acts|
    && (b.byTimer || ConfiguredAt(acts, b.fetchedAt, b.minView))
    && acts[b.sentAt].Send? && b.at == Exec(acts[..b.sentAt]).now
    && acts[b.seenAt] == Check(acts[b.sentAt].task) && acts[b.fetchedAt] == Fetch(acts[b.sentAt].task)
  }

  ghost predicate SeenInv(acts: seq<Action>) {
    var s := Exec(acts);
    && (forall k :: 0 <= k < |s.tasks| ==> TaskSaw(acts, k, s.tasks[k]))
    && (forall i :: 0 <= i < |s.sent| ==> BackSaw(acts, s.sent[i]))
  }

  lemma PrefixStays(acts: seq<Action>, a: Action, at: nat)
    requires at <= |acts|
    ensures (acts + [a])[..at] == acts[..at]
  {
  }

  lemma BoundStays(acts: seq<Action>, a: Action, at: nat, v: ViewerId, node: Option<NodeId>)
    requires BoundAt(acts, at, v, node)
    ensures BoundAt(acts + [a], at, v, node)
  {
    PrefixStays(acts, a, at);
  }

  lemma ConfiguredStays(acts: seq<Action>, a: Action, at: nat, secs: nat)
    requires ConfiguredAt(acts, at, secs)
    ensures ConfiguredAt(acts + [a], at, secs)
  {
    PrefixStays(acts, a, at);
  }

  lemma ClientStays(acts: seq<Action>, a: Action, at: nat, node: Option<NodeId>)
    requires ClientAt(acts, at, node)
    ensures ClientAt(acts + [a], at, node)
  {
    PrefixStays(acts, a, at);
  }

  lemma TaskSawStays(acts: seq<Action>, a: Action, k: nat, t: Task)
    requires TaskSaw(acts, k, t)
    ensures TaskSaw(acts + [a], k, t)
  {
    if PastCheck(t) {
      BoundStays(acts, a, t.phase.seenAt, t.entry.viewer, t.entry.node);
      if t.phase.Cleared? {
        ClientStays(acts, a, t.phase.fetchedAt, t.entry.node);
      }
      if t.phase.Cleared? && !t.byTimer {
        ConfiguredStays(acts, a, t.phase.fetchedAt, t.phase.minView);
      }
    }
  }

  lemma BackSawStays(acts: seq<Action>, a: Action, b: SwitchBack)
    requires BackSaw(acts, b)
    ensures BackSaw(acts + [a], b)
  {
    BoundStays(acts, a, b.seenAt, b.viewer, b.node);
    ClientStays(acts, a, b.fetchedAt, b.node);
    if !b.byTimer {
      ConfiguredStays(acts, a, b.fetchedAt, b.minView);
    }
    PrefixStays(acts, a, b.sentAt);
  }

  /** How a task past the check got there: it was there, or the step was its check,
      or the step fetched its client. */
  predicate TaskSeen(s: Sys, a: Action, t: Sys, k: nat)
    requires k < |t.tasks| && PastCheck(t.tasks[k])
  {
    var now := t.tasks[k];
    && k < |s.tasks|
    && var was := s.tasks[k];
       || now == was
       || (&& a == Check(k) && now == was.(phase := Matched(s.steps))
           && s.pool.NodeOf(was.entry.viewer) == was.entry.node)
       || (&& a == Fetch(k) && was.phase.Matched? && s.pool.HasClient(was.entry.node)
           && now == was.(phase := Cleared(was.phase.seenAt, s.steps, if was.byTimer then 0 else s.minView)))
  }

  /** A switch-back was there before, or the step sent it from a cleared task. */
  predicate SentSeen(s: Sys, a: Action, t: Sys, i: nat)
    requires i < |t.sent|
  {
    if i < |s.sent| then t.sent[i] == s.sent[i]
    else
      && a.Send? && a.task < |s.tasks| && s.tasks[a.task].phase.Cleared?
      && var task := s.tasks[a.task];
         t.sent[i] == SwitchBack(task.token, task.entry.viewer, task.entry.node, s.now, task.byTimer,
                                 task.phase.minView, task.phase.seenAt, task.phase.fetchedAt, s.steps)
  }

  lemma StepSeesTasks(s: Sys, a: Action)
    ensures var t := Step(s, a); forall k :: 0 <= k < |t.tasks| && PastCheck(t.tasks[k]) ==> TaskSeen(s, a, t, k)
  {
  }

  lemma StepSeesSent(s: Sys, a: Action)
    ensures var t := Step(s, a); forall i :: 0 <= i < |t.sent| ==> SentSeen(s, a, t, i)
  {
  }

  lemma TaskSeenSaw(acts: seq<Action>, a: Action, s: Sys, t: Sys, k: nat)
    requires SeenInv(acts) && s == Exec(acts) && s.steps == |acts|
    requires k < |t.tasks| && PastCheck(t.tasks[k]) && TaskSeen(s, a, t, k)
    ensures TaskSaw(acts + [a], k, t.tasks[k])
  {
    PrefixStays(acts, a, |acts|);
    TaskSawStays(acts, a, k, s.tasks[k]);
  }

  lemma SentSeenSaw(acts: seq<Action>, a: Action, s: Sys, t: Sys, i: nat)
    requires SeenInv(acts) && s == Exec(acts) && s.steps == |acts|
    requires i < |t.sent| && SentSeen(s, a, t, i)
    ensures BackSaw(acts + [a], t.sent[i])
  {
    if i < |s.sent| {
      BackSawStays(acts, a, s.sent[i]);
    } else {
      PrefixStays(acts, a, |acts|);
      TaskSawStays(acts, a, a.task, s.tasks[a.task]);
    }
  }

  lemma SeenStep(acts: seq<Action>, a: Action, s: Sys, t: Sys)
    requires SeenInv(acts) && s == Exec(acts) && t == Exec(acts + [a]) && s.steps == |acts|
    requires forall k :: 0 <= k < |t.tasks| && PastCheck(t.tasks[k]) ==> TaskSeen(s, a, t, k)
    requires forall i :: 0 <= i < |t.sent| ==> SentSeen(s, a, t, i)
    ensures SeenInv(acts + [a])
  {
    forall k | 0 <= k < |t.tasks|
      ensures TaskSaw(acts + [a], k, t.tasks[k])
    {
      if PastCheck(t.tasks[k]) {
        TaskSeenSaw(acts, a, s, t, k);
      }
    }
    forall i | 0 <= i < |t.sent|
      ensures BackSaw(acts + [a], t.sent[i])
    {
      SentSeenSaw(acts, a, s, t, i);
    }
  }

  lemma {:induction false} SeenAlways(acts: seq<Action>)
    ensures SeenInv(acts)
  {
    if acts != [] {
      var n := |acts| - 1;
      var s, a := Exec(acts[..n]), acts[n];
      assert acts[..n] + [a] == acts;
      SeenAlways(acts[..n]);
      Always(acts[..n]);
      StepSeesTasks(s, a);
      StepSeesSent(s, a);
      SeenStep(acts[..n], a, s, Exec(acts));
    }
  }

  /** The step that set a token up: the first to name it. */
  function SetAt(acts: seq<Action>, token: Token): (at: nat)
    ensures at <= |acts|
  {
    if acts == [] then 0
    else
      var n := |acts| - 1;
      if SetAt(acts[..n], token) < n then SetAt(acts[..n], token)
      else if acts[n].SetUp? && acts[n].token == token then n else n + 1
  }

  /** Step `at` of the run set this entry and its timer up. */
  predicate SetUpBy(acts: seq<Action>, token: Token, e: Entry, duration: nat, at: nat) {
    && at < |acts| && acts[at] == SetUp(token, e.viewer, e.node, duration)
    && Exec(acts[..at]).now == e.startedAt
  }

  /** Every token set up has its step; a token that is not has none. */
  ghost predicate SetUpInv(acts: seq<Action>, t: Token) {
    var s := Exec(acts);
    if t in s.setups
    then t in s.timers && SetUpBy(acts, t, s.setups[t], s.timers[t].duration, SetAt(acts, t))
    else SetAt(acts, t) == |acts|
  }

  /** A step leaves earlier set-ups alone; a new one is the step's own. */
  lemma StepSetsUp(s: Sys, a: Action, t: Token)
    requires t in s.setups ==> t in s.timers
    ensures var u := Step(s, a);
            && (t in s.setups ==>
                  && t in u.setups && t in u.timers
                  && u.setups[t] == s.setups[t] && u.timers[t].duration == s.timers[t].duration)
            && (t !in s.setups && t in u.setups ==>
                  && a == SetUp(t, u.setups[t].viewer, u.setups[t].node, a.duration)
                  && u.setups[t].startedAt == s.now && t in u.timers && u.timers[t].duration == a.duration)
            && (t !in u.setups ==> !a.SetUp? || a.token != t)
  {
  }

  lemma {:induction false} SetUpAlways(acts: seq<Action>, t: Token)
    ensures SetUpInv(acts, t)
  {
    if acts != [] {
      var n := |acts| - 1;
      SetUpAlways(acts[..n], t);
      StepSetsUp(Exec(acts[..n]), acts[n], t);
      assert SetAt(acts[..n], t) < n ==> acts[..n][..SetAt(acts[..n], t)] == acts[..SetAt(acts[..n], t)];
    }
  }

  /** For every interleaving of timers, events and re-placement: each token causes
      at most one switch-back, to the node recorded at set-up and for the viewer
      recorded there, only after the viewer was seen bound to that node; one caused
      by an event is not sent before the minimum view time that was configured when
      its client was fetched, one caused by the timer not before the ad's time is up. */
  lemma AdBreakEndsAtMostOnce(acts: seq<Action>)
    ensures var s := Exec(acts);
            && (forall i, j :: 0 <= i < j < |s.sent| ==> s.sent[i].token != s.sent[j].token)
            && (forall i :: 0 <= i < |s.sent| ==> EndedProperly(acts, s.sent[i]))
  {
    Always(acts);
    SeenAlways(acts);
    var s := Exec(acts);
    forall i | 0 <= i < |s.sent|
      ensures EndedProperly(acts, s.sent[i])
    {
      var b := s.sent[i];
      assert SentOk(s, b) && BackSaw(acts, b);
      SetUpAlways(acts, b.token);
    }
  }

  /** The whole story of a switch-back, read off the run: the set-up it ends, the
      step that saw the viewer, the one that read the configuration, the one that
      sent it, and that it was not sent early. */
  predicate EndedProperly(acts: seq<Action>, b: SwitchBack) {
    && SetAt(acts, b.token) < |acts|
    && b.seenAt < b.fetchedAt < b.sentAt < |acts|
    && var setUp := acts[SetAt(acts, b.token)];
       && setUp.SetUp? && setUp.token == b.token && setUp.viewer == b.viewer && setUp.node == b.node
       && acts[b.sentAt].Send? && b.at == Exec(acts[..b.sentAt]).now
       && acts[b.seenAt] == Check(acts[b.sentAt].task) && acts[b.fetchedAt] == Fetch(acts[b.sentAt].task)
       && Exec(acts[..b.seenAt]).pool.NodeOf(b.viewer) == b.node
       && Exec(acts[..b.fetchedAt]).pool.HasClient(b.node)
       && var started := Exec(acts[..SetAt(acts, b.token)]).now;
          if b.byTimer then started + (if setUp.duration > 30 then setUp.duration else 30) + 10 <= b.at
          else started + Exec(acts[..b.fetchedAt]).minView <= b.at
  }

  // ---------------------------------------------------------------------------
  // Is the viewer still there when it is sent back?
  // ---------------------------------------------------------------------------

  /** Action `a` changes where viewer `v` is bound. */
  predicate Touches(p: Pool, a: Action, v: ViewerId) {
    || (a.Bind? && a.v == v)
    || (a.Unbind? && a.v == v)
    || (a.DropBindings? && v in p.bindings && p.bindings[v] == a.n)
  }

  /** Where it leaves the viewer. */
  function Leaves(a: Action): Option<NodeId> {
    if a.Bind? then Some(a.n) else None
  }

  predicate TouchesAt(acts: seq<Action>, k: nat, v: ViewerId) {
    k < |acts| && Touches(Exec(acts[..k]).pool, acts[k], v)
  }

  function Touched(acts: seq<Action>, v: ViewerId): seq<bool> {
    seq(|acts|, k requires 0 <= k < |acts| => TouchesAt(acts, k, v))
  }

  /** The last true one from `lo` up to `hi`. */
  function LastTrue(flags: seq<bool>, lo: nat, hi: nat): (k: Option<nat>)
    requires lo <= hi <= |flags|
    ensures k.Some? ==> lo <= k.value < hi && flags[k.value]
    ensures forall m :: (if k.Some? then k.value + 1 else lo) <= m < hi ==> !flags[m]
    decreases hi
  {
    if lo == hi then None else if flags[hi - 1] then Some(hi - 1) else LastTrue(flags, lo, hi - 1)
  }

  /** The last action of steps `lo` to `hi` that touched the viewer's binding. */
  function LastTouch(acts: seq<Action>, lo: nat, hi: nat, v: ViewerId): (k: Option<nat>)
    requires lo <= hi <= |acts|
    ensures k.Some? ==> lo <= k.value < hi
  {
    LastTrue(Touched(acts, v), lo, hi)
  }

  lemma BindingStep(s: Sys, a: Action, v: ViewerId)
    ensures Step(s, a).pool.NodeOf(v) == if Touches(s.pool, a, v) then Leaves(a) else s.pool.NodeOf(v)
  {
    assert Step(s, a).pool == Move(s.pool, a);
  }

  lemma BindingAt(acts: seq<Action>, k: nat, v: ViewerId)
    requires k < |acts|
    ensures Exec(acts[..k + 1]).pool.NodeOf(v)
         == if TouchesAt(acts, k, v) then Leaves(acts[k]) else Exec(acts[..k]).pool.NodeOf(v)
  {
    assert acts[..k + 1][..k] == acts[..k];
    BindingStep(Exec(acts[..k]), acts[k], v);
  }

  /** A value that changes only where flagged is what the last flag made it. */
  lemma {:induction false} LastFlagDecides<T>(flags: seq<bool>, made: seq<T>, values: seq<T>, lo: nat, hi: nat)
    requires |made| == |flags| && |values| == |flags| + 1 && lo <= hi <= |flags|
    requires forall k :: 0 <= k < |flags| ==> values[k + 1] == if flags[k] then made[k] else values[k]
    ensures var k := LastTrue(flags, lo, hi); values[hi] == if k.Some? then made[k.value] else values[lo]
    decreases hi
  {
    if lo < hi {
      LastFlagDecides(flags, made, values, lo, hi - 1);
      assert values[hi - 1 + 1] == if flags[hi - 1] then made[hi - 1] else values[hi - 1];
    }
  }

  /** The binding is where the last touch left it. */
  lemma BindingIsLastTouch(acts: seq<Action>, lo: nat, hi: nat, v: ViewerId)
    requires lo <= hi <= |acts|
    ensures var k := LastTouch(acts, lo, hi, v);
            Exec(acts[..hi]).pool.NodeOf(v) == if k.Some? then Leaves(acts[k.value]) else Exec(acts[..lo]).pool.NodeOf(v)
  {
    var made := seq(|acts|, k requires 0 <= k < |acts| => Leaves(acts[k]));
    var values := seq(|acts| + 1, k requires 0 <= k <= |acts| => Exec(acts[..k]).pool.NodeOf(v));
    forall k | 0 <= k < |acts|
      ensures values[k + 1] == if Touched(acts, v)[k] then made[k] else values[k]
    {
      BindingAt(acts, k, v);
    }
    LastFlagDecides(Touched(acts, v), made, values, lo, hi);
  }

  /** When a switch-back is sent, the viewer is on the node it goes to exactly when
      nothing has touched the viewer's binding since it was checked, or the last
      thing that did left the viewer on that node. */
  lemma SentWhereTheViewerIsIff(acts: seq<Action>, i: nat)
    requires i < |Exec(acts).sent|
    ensures var b := Exec(acts).sent[i];
            && b.seenAt < b.sentAt < |acts|
            && var k := LastTouch(acts, b.seenAt, b.sentAt, b.viewer);
               Exec(acts[..b.sentAt]).pool.NodeOf(b.viewer) == b.node <==> k.None? || Leaves(acts[k.value]) == b.node
  {
    AdBreakEndsAtMostOnce(acts);
    var b := Exec(acts).sent[i];
    assert EndedProperly(acts, b);
    BindingIsLastTouch(acts, b.seenAt, b.sentAt, b.viewer);
  }

  /** An entry never outlives its timer: while it is there, the timer has not fired. */
  lemma TableHasLiveTimers(acts: seq<Action>)
    ensures var s := Exec(acts); forall t <- s.table :: t in s.timers && !s.timers[t].fired
  {
    Always(acts);
  }

  /** The timer alone ends the break: due, its entry still there and the viewer
      still bound to a known node, it sends the viewer back. */
  lemma DueTimerSendsBack(s: Sys, token: Token)
    requires TableInv(s) && TimerInv(s) && token in s.table && s.timers[token].fireAt <= s.now
    requires s.pool.NodeOf(s.table[token].viewer) == s.table[token].node && s.pool.HasClient(s.table[token].node)
    ensures var k := |s.tasks|;
            var t := Step(Step(Step(Step(s, Fire(token)), Check(k)), Fetch(k)), Send(k));
            && |t.sent| == |s.sent| + 1 && t.sent[|s.sent|].token == token
            && t.sent[|s.sent|].viewer == s.table[token].viewer && t.sent[|s.sent|].node == s.table[token].node
            && t.sent[|s.sent|].byTimer && Fired(Step(s, Fire(token)), token)
  {
    var k, e := |s.tasks|, s.table[token];
    var s1 := Step(s, Fire(token));
    assert |s1.tasks| == k + 1 && s1.tasks[k] == Task(token, e, true, Taken);
    assert s1.pool == s.pool && s1.now == s.now && s1.sent == s.sent;
    assert e == s.setups[token];
    TakenSendsBack(s1, k);
  }

  /** And so does the client's event, on a node or on the origin: once the minimum
      view time is over it sends the viewer back, once. */
  lemma EventSendsBack(s: Sys, token: Token)
    requires TableInv(s) && token in s.table
    requires s.pool.NodeOf(s.table[token].viewer) == s.table[token].node && s.pool.HasClient(s.table[token].node)
    ensures var k := |s.tasks|;
            var t := Step(Step(Step(Step(Step(s, EndEvent(token)), Check(k)), Fetch(k)), Tick(s.minView)), Send(k));
            && |t.sent| == |s.sent| + 1 && t.sent[|s.sent|].token == token
            && t.sent[|s.sent|].viewer == s.table[token].viewer && t.sent[|s.sent|].node == s.table[token].node
            && token !in t.table && t.tasks[k].phase == Finished
  {
    var k, e := |s.tasks|, s.table[token];
    var s1 := Step(s, EndEvent(token));
    assert |s1.tasks| == k + 1 && s1.tasks[k] == Task(token, e, false, Taken);
    assert s1.pool == s.pool && s1.now == s.now && s1.sent == s.sent && s1.minView == s.minView;
    assert e == s.setups[token];
    EventTaskSendsBack(s1, k);
  }

  lemma EventTaskSendsBack(s: Sys, k: nat)
    requires k < |s.tasks| && s.tasks[k].phase == Taken && !s.tasks[k].byTimer
    requires s.tasks[k].entry.startedAt <= s.now
    requires s.pool.NodeOf(s.tasks[k].entry.viewer) == s.tasks[k].entry.node && s.pool.HasClient(s.tasks[k].entry.node)
    ensures var t := Step(Step(Step(Step(s, Check(k)), Fetch(k)), Tick(s.minView)), Send(k));
            && |t.sent| == |s.sent| + 1 && t.sent[|s.sent|].token == s.tasks[k].token
            && t.sent[|s.sent|].viewer == s.tasks[k].entry.viewer && t.sent[|s.sent|].node == s.tasks[k].entry.node
            && t.table == s.table && k < |t.tasks| && t.tasks[k].phase == Finished
  {
    var s1 := Step(s, Check(k));
    assert s1.tasks[k] == s.tasks[k].(phase := Matched(s.steps)) && s1.pool == s.pool && s1.sent == s.sent;
    var s2 := Step(s1, Fetch(k));
    assert s2.tasks[k] == s.tasks[k].(phase := Cleared(s.steps, s1.steps, s.minView)) && s2.now == s.now;
    var s3 := Step(s2, Tick(s.minView));
    assert s3.tasks == s2.tasks && s3.now == s.now + s.minView && s3.sent == s.sent;
    ClearedSends(s3, k);
  }

  lemma TakenSendsBack(s: Sys, k: nat)
    requires k < |s.tasks| && s.tasks[k].phase == Taken && s.tasks[k].byTimer
    requires s.tasks[k].entry.startedAt <= s.now
    requires s.pool.NodeOf(s.tasks[k].entry.viewer) == s.tasks[k].entry.node && s.pool.HasClient(s.tasks[k].entry.node)
    ensures var t := Step(Step(Step(s, Check(k)), Fetch(k)), Send(k));
            && |t.sent| == |s.sent| + 1 && t.sent[|s.sent|].token == s.tasks[k].token
            && t.sent[|s.sent|].viewer == s.tasks[k].entry.viewer && t.sent[|s.sent|].node == s.tasks[k].entry.node
            && t.sent[|s.sent|].byTimer
  {
    var s1 := Step(s, Check(k));
    assert s1.tasks[k] == s.tasks[k].(phase := Matched(s.steps)) && s1.pool == s.pool && s1.sent == s.sent;
    var s2 := Step(s1, Fetch(k));
    assert s2.tasks[k] == s.tasks[k].(phase := Cleared(s.steps, s1.steps, 0)) && s2.now == s.now && s2.sent == s.sent;
    ClearedSends(s2, k);
  }

  predicate Fired(s: Sys, token: Token) {
    token in s.timers && s.timers[token].fired
  }

  lemma FiredStays(s: Sys, a: Action, token: Token)
    requires TableInv(s) && TimerInv(s) && Fired(s, token)
    ensures Fired(Step(s, a), token)
  {
  }

  /** Once the timer has fired, the token is gone for good. */
  lemma {:induction false} FiredTokenIsGone(acts: seq<Action>, more: seq<Action>, token: Token)
    requires Fired(Exec(acts), token)
    ensures var t := Exec(acts + more); Fired(t, token) && token !in t.table
  {
    if more == [] {
      assert acts + more == acts;
      Always(acts);
    } else {
      var n := |more| - 1;
      FiredTokenIsGone(acts, more[..n], token);
      Always(acts + more[..n]);
      assert (acts + more)[..|acts + more| - 1] == acts + more[..n];
      FiredStays(Exec(acts + more[..n]), more[n], token);
      Always(acts + more);
    }
  }

  /** The check is made before the minimum view time is waited out: a viewer moved
      during the wait is switched back on a node that no longer has it. */
  lemma MovedDuringTheWait(token: Token, v: ViewerId, m: NodeId, n: NodeId, wait: nat)
    requires m != n && wait > 0
    ensures var s1 := Step(Step(Step(START, Configure(wait)), Upsert(m)), Bind(v, m));
            var s2 := Step(Step(s1, SetUp(token, v, Some(m), 0)), EndEvent(token));
            var s3 := Step(Step(s2, Check(0)), Fetch(0));
            var s4 := Step(Step(Step(s3, Bind(v, n)), Tick(wait)), Send(0));
            && |s4.sent| == 1 && s4.sent[0].token == token && s4.sent[0].node == Some(m)
            && s4.pool.NodeOf(v) == Some(n)
  {
    var s1 := Step(Step(Step(START, Configure(wait)), Upsert(m)), Bind(v, m));
    var s2 := Step(Step(s1, SetUp(token, v, Some(m), 0)), EndEvent(token));
    assert s2.tasks == [Task(token, Entry(v, Some(m), 0), false, Taken)];
    var s3 := Step(Step(s2, Check(0)), Fetch(0));
    assert s3.tasks[0].phase.Cleared? && s3.tasks[0].phase.minView == wait;
    assert s3.tasks[0].entry == Entry(v, Some(m), 0) && s3.sent == [] && |s3.tasks| == 1;
    ClearedSends(Step(Step(s3, Bind(v, n)), Tick(wait)), 0);
  }

  lemma ClearedSends(s: Sys, k: nat)
    requires k < |s.tasks| && s.tasks[k].phase.Cleared?
    requires s.tasks[k].entry.startedAt + s.tasks[k].phase.minView <= s.now
    ensures var t := Step(s, Send(k));
            && t.pool == s.pool && |t.sent| == |s.sent| + 1
            && t.sent[|s.sent|].token == s.tasks[k].token
            && t.sent[|s.sent|].viewer == s.tasks[k].entry.viewer && t.sent[|s.sent|].node == s.tasks[k].entry.node
            && t.sent[|s.sent|].byTimer == s.tasks[k].byTimer
            && t.table == s.table && k < |t.tasks| && t.tasks[k].phase == Finished
  {
  }

  // ---------------------------------------------------------------------------
  // The shared table
  // ---------------------------------------------------------------------------

  class AdSwitches {
    var adSwitches: map<Token, Entry>
    var timers: map<Token, Timer>
    var tasks: seq<Task>
    var sent: seq<SwitchBack>
    var setups: map<Token, Entry>

    /** The protocol state these fields stand for, beside clock, config and pool. */
    ghost function View(steps: nat, now: nat, minView: nat, pool: Pool): Sys
      reads this
    {
      Sys(steps, now, minView, pool, adSwitches, setups, timers, tasks, sent)
    }

    constructor ()
      ensures View(0, 0, 0, Pool({}, map[])) == START
    {
      adSwitches, timers, tasks, sent, setups := map[], map[], [], [], map[];
    }

    /** ad_decision: remember the switch and spawn the timer. The table takes any
        token; the protocol is stepped with fresh ones. */
    method Remember(token: Token, viewer: ViewerId, node: Option<NodeId>, duration: nat, now: nat,
                    ghost steps: nat, ghost minView: nat, ghost pool: Pool)
      modifies `adSwitches, `timers, `setups
      ensures adSwitches == old(adSwitches)[token := Entry(viewer, node, now)]
      ensures token !in old(setups) ==>
                (View(steps + 1, now, minView, pool)
                 == Step(old(View(steps, now, minView, pool)), SetUp(token, viewer, node, duration)))
    {
      var e := Entry(viewer, node, now);
      adSwitches := adSwitches[token := e];
      setups := setups[token := e];
      var dur := if duration > MIN_DURATION then duration else MIN_DURATION;
      timers := timers[token := Timer(duration, now + dur + GRACE, false)];
    }

    method TakeIfPending(token: Token, byTimer: bool) returns (pending: bool)
      modifies `adSwitches, `tasks
      ensures pending <==> token in old(adSwitches)
      ensures adSwitches == old(adSwitches) - {token}
      ensures tasks == old(tasks) + if pending then [Task(token, old(adSwitches)[token], byTimer, Taken)] else []
    {
      pending := token in adSwitches;
      if pending {
        tasks := tasks + [Task(token, adSwitches[token], byTimer, Taken)];
      }
      adSwitches := adSwitches - {token};
    }

    /** The spawned task waking up. */
    method TimerFires(token: Token, now: nat, ghost steps: nat, ghost minView: nat, ghost pool: Pool)
      requires token in timers && !timers[token].fired && timers[token].fireAt <= now
      modifies `adSwitches, `tasks, `timers
      ensures View(steps + 1, now, minView, pool) == Step(old(View(steps, now, minView, pool)), Fire(token))
    {
      timers := timers[token := timers[token].(fired := true)];
      var pending := TakeIfPending(token, true);
      assert !pending ==> adSwitches == old(adSwitches);
    }

    /** report_ad_event for skip and complete. */
    method AdEnds(token: Token, ghost steps: nat, ghost now: nat, ghost minView: nat, ghost pool: Pool)
      modifies `adSwitches, `tasks
      ensures View(steps + 1, now, minView, pool) == Step(old(View(steps, now, minView, pool)), EndEvent(token))
    {
      var pending := TakeIfPending(token, false);
      assert !pending ==> adSwitches == old(adSwitches);
    }
  }
}
