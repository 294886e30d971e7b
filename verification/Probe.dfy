// ProbeTracker: the status shown for a server, kept incrementally, equals a
// definition over the whole probe history.
module Probe {
  import opened Media

  const UNREACHABLE_AFTER := 3

  datatype Outcome = NotConfigured | Ok | Degraded | Failed

  datatype Status = ShowOk | ShowDegraded | ShowUnreachable | ShowNotConfigured

  datatype Sample = Sample(outcome: Outcome, at: int)

  // ---------------------------------------------------------------------------
  // The definition
  // ---------------------------------------------------------------------------

  /** The samples after the last NotConfigured. */
  function Since(history: seq<Sample>): seq<Sample> {
    if history == [] || history[|history| - 1].outcome == NotConfigured then []
    else Since(history[..|history| - 1]) + [history[|history| - 1]]
  }

  /** How many failures end the samples. */
  function Failures(samples: seq<Sample>): (n: nat)
    ensures n <= |samples|
  {
    if samples == [] || samples[|samples| - 1].outcome != Failed then 0
    else 1 + Failures(samples[..|samples| - 1])
  }

  function Show(o: Outcome): Status {
    match o
    case NotConfigured => ShowNotConfigured
    case Ok => ShowOk
    case Degraded => ShowDegraded
    case Failed => ShowUnreachable
  }

  /** The status of the last sample that did not fail, if fewer than three failures
      follow it; otherwise unreachable. */
  function StatusIn(samples: seq<Sample>): Status {
    var n := Failures(samples);
    if samples == [] then ShowNotConfigured
    else if n < |samples| && n < UNREACHABLE_AFTER then Show(samples[|samples| - n - 1].outcome)
    else ShowUnreachable
  }

  /** The time of the last sample that did not fail. */
  function AnswerIn(samples: seq<Sample>): Option<int> {
    var n := Failures(samples);
    if n < |samples| then Some(samples[|samples| - n - 1].at) else None
  }

  /** What a whole history comes to: only what follows the last NotConfigured. */
  function StatusOf(history: seq<Sample>): Status {
    StatusIn(Since(history))
  }

  function LastAnswer(history: seq<Sample>): Option<int> {
    AnswerIn(Since(history))
  }

  // ---------------------------------------------------------------------------
  // The tracker
  // ---------------------------------------------------------------------------

  datatype Tracker = Tracker(consecutiveFailures: nat, lastOkAt: Option<int>, lastStatus: Option<Status>)

  const DEFAULT: Tracker := Tracker(0, None, None)

  function Record(t: Tracker, s: Sample): (Tracker, Status) {
    match s.outcome
    case NotConfigured => (DEFAULT, ShowNotConfigured)
    case Failed =>
      var n := t.consecutiveFailures + 1;
      var status := if t.lastStatus.Some? && n < UNREACHABLE_AFTER then t.lastStatus.value else ShowUnreachable;
      (Tracker(n, t.lastOkAt, Some(status)), status)
    case _ => (Tracker(0, Some(s.at), Some(Show(s.outcome))), Show(s.outcome))
  }

  class ProbeTracker {
    var consecutiveFailures: nat
    var lastOkAt: Option<int>
    var lastStatus: Option<Status>

    ghost function View(): Tracker
      reads this
    {
      Tracker(consecutiveFailures, lastOkAt, lastStatus)
    }

    constructor ()
      ensures View() == DEFAULT
    {
      consecutiveFailures, lastOkAt, lastStatus := 0, None, None;
    }

    /** From a tracker that stands for `history`, the status returned is the
        definition's for the history with this probe added. */
    method RecordProbe(probe: Outcome, now: int, ghost history: seq<Sample>) returns (status: Status)
      requires Tracks(View(), history)
      modifies this
      ensures status == StatusOf(history + [Sample(probe, now)])
      ensures Tracks(View(), history + [Sample(probe, now)])
    {
      RecordTracks(View(), history, Sample(probe, now));
      match probe {
        case NotConfigured =>
          consecutiveFailures, lastOkAt, lastStatus := 0, None, None;
          return ShowNotConfigured;
        case Failed =>
          consecutiveFailures := consecutiveFailures + 1;
          if lastStatus.Some? && consecutiveFailures < UNREACHABLE_AFTER {
            status := lastStatus.value;
          } else {
            status := ShowUnreachable;
          }
        case _ =>
          consecutiveFailures := 0;
          lastOkAt := Some(now);
          status := if probe == Ok then ShowOk else ShowDegraded;
      }
      lastStatus := Some(status);
    }
  }

  // ---------------------------------------------------------------------------
  // They agree
  // ---------------------------------------------------------------------------

  /** The tracker's fields, read off the whole history. */
  ghost predicate Tracks(t: Tracker, history: seq<Sample>) {
    && t.consecutiveFailures == Failures(Since(history))
    && t.lastOkAt == LastAnswer(history)
    && t.lastStatus == (if Since(history) == [] then None else Some(StatusOf(history)))
  }

  lemma SinceNext(history: seq<Sample>, s: Sample)
    ensures Since(history + [s]) == if s.outcome == NotConfigured then [] else Since(history) + [s]
  {
    assert (history + [s])[..|history|] == history;
  }

  lemma FailuresNext(samples: seq<Sample>, s: Sample)
    ensures Failures(samples + [s]) == if s.outcome == Failed then Failures(samples) + 1 else 0
  {
    assert (samples + [s])[..|samples|] == samples;
  }

  lemma {:induction false} FailuresMeans(samples: seq<Sample>)
    ensures var n := Failures(samples);
            && (forall i :: |samples| - n <= i < |samples| ==> samples[i].outcome == Failed)
            && (n < |samples| ==> samples[|samples| - n - 1].outcome != Failed)
  {
    if samples != [] && samples[|samples| - 1].outcome == Failed {
      FailuresMeans(samples[..|samples| - 1]);
    }
  }

  lemma {:induction false} SinceHasNoReset(history: seq<Sample>)
    ensures forall i :: 0 <= i < |Since(history)| ==> Since(history)[i].outcome != NotConfigured
    ensures |Since(history)| <= |history|
    ensures Since(history) == history[|history| - |Since(history)|..]
  {
    if history != [] && history[|history| - 1].outcome != NotConfigured {
      SinceHasNoReset(history[..|history| - 1]);
    }
  }

  /** One more failure leaves the last answer where it was. */
  lemma FailureKeepsAnswer(a: seq<Sample>, s: Sample)
    requires s.outcome == Failed
    ensures var b, n := a + [s], Failures(a);
            && Failures(b) == n + 1 && |b| - Failures(b) - 1 == |a| - n - 1
            && (n < |a| ==> b[|a| - n - 1] == a[|a| - n - 1])
  {
    FailuresNext(a, s);
  }

  lemma FailureAdds(a: seq<Sample>, s: Sample)
    requires s.outcome == Failed
    ensures AnswerIn(a + [s]) == AnswerIn(a)
    ensures StatusIn(a + [s]) == if a != [] && Failures(a) + 1 < UNREACHABLE_AFTER then StatusIn(a) else ShowUnreachable
  {
    FailureKeepsAnswer(a, s);
  }

  lemma AnswerAdds(a: seq<Sample>, s: Sample)
    requires s.outcome == Ok || s.outcome == Degraded
    ensures AnswerIn(a + [s]) == Some(s.at) && StatusIn(a + [s]) == Show(s.outcome)
  {
    FailuresNext(a, s);
    assert (a + [s])[|a|] == s;
  }

  lemma RecordTracks(t: Tracker, history: seq<Sample>, s: Sample)
    requires Tracks(t, history)
    ensures Tracks(Record(t, s).0, history + [s])
    ensures Record(t, s).1 == StatusOf(history + [s])
  {
    SinceNext(history, s);
    FailuresNext(Since(history), s);
    match s.outcome {
      case Failed => FailureAdds(Since(history), s);
      case NotConfigured =>
      case _ => AnswerAdds(Since(history), s);
    }
  }

  function RecordAll(history: seq<Sample>): Tracker {
    if history == [] then DEFAULT
    else Record(RecordAll(history[..|history| - 1]), history[|history| - 1]).0
  }

  /** For every probe sequence the incremental status is the definition's. */
  lemma {:induction false} StatusIsHistory(history: seq<Sample>, s: Sample)
    ensures Tracks(RecordAll(history), history)
    ensures Record(RecordAll(history), s).1 == StatusOf(history + [s])
    decreases |history|
  {
    if history != [] {
      var n := |history| - 1;
      StatusIsHistory(history[..n], history[n]);
      RecordTracks(RecordAll(history[..n]), history[..n], history[n]);
      assert history[..n] + [history[n]] == history;
    }
    RecordTracks(RecordAll(history), history, s);
  }

  /** A successful probe among the last three, with only failures after it. */
  predicate RecentSuccess(history: seq<Sample>, i: int) {
    && 0 <= i < |history| && |history| - 3 <= i
    && history[i].outcome == Ok
    && forall j :: i < j < |history| ==> history[j].outcome == Failed
  }

  lemma RecentInSuffix(history: seq<Sample>, s: seq<Sample>, n: nat)
    requires n < |s| <= |history| && s == history[|history| - |s|..]
    requires forall i :: |s| - n <= i < |s| ==> s[i].outcome == Failed
    requires n < UNREACHABLE_AFTER && s[|s| - n - 1].outcome == Ok
    ensures RecentSuccess(history, |history| - n - 1)
  {
    forall j | |history| - n <= j < |history|
      ensures history[j].outcome == Failed
    {
      assert history[j] == s[j - (|history| - |s|)];
    }
  }

  lemma ShownOkIsRecent(history: seq<Sample>) returns (i: int)
    requires history != [] && StatusOf(history) == ShowOk
    ensures RecentSuccess(history, i)
  {
    var s, n := Since(history), Failures(Since(history));
    i := |history| - n - 1;
    assert n < |s| && n < UNREACHABLE_AFTER && s[|s| - n - 1].outcome == Ok;
    SinceHasNoReset(history);
    FailuresMeans(s);
    RecentInSuffix(history, s, n);
  }

  lemma RecentIsShownOk(history: seq<Sample>, i: int)
    requires RecentSuccess(history, i)
    ensures StatusOf(history) == ShowOk
  {
    SinceHasNoReset(history);
    SinceReaches(history, i);
    var s := Since(history);
    FailuresMeans(s);
    var n, shift := Failures(s), |history| - |s|;
    assert s == history[shift..];
    assert s[i - shift] == history[i];
    if n < |s| {
      assert s[|s| - n - 1] == history[|history| - n - 1];
    }
    assert |s| - n - 1 == i - shift;
  }

  /** Ok is shown exactly when a successful probe is among the last three and only
      failures follow it. */
  lemma OkNeedsRecentSuccess(history: seq<Sample>)
    requires history != []
    ensures StatusOf(history) == ShowOk <==> exists i :: RecentSuccess(history, i)
  {
    if StatusOf(history) == ShowOk {
      var i := ShownOkIsRecent(history);
    }
    if i :| RecentSuccess(history, i) {
      RecentIsShownOk(history, i);
    }
  }

  lemma {:induction false} SinceReaches(history: seq<Sample>, i: nat)
    requires i < |history|
    requires forall j :: i <= j < |history| ==> history[j].outcome != NotConfigured
    ensures |Since(history)| >= |history| - i
    decreases |history|
  {
    if i < |history| - 1 {
      SinceReaches(history[..|history| - 1], i);
    }
  }

  /** What the last probe alone decides: an answer is shown as it is, and an
      unconfigured server as unconfigured, whatever came before; three failures in a
      row, or a first one, are shown as unreachable. */
  lemma LastProbeShows(history: seq<Sample>, at: int)
    ensures StatusOf(history + [Sample(Ok, at)]) == ShowOk
    ensures StatusOf(history + [Sample(Degraded, at)]) == ShowDegraded
    ensures StatusOf(history + [Sample(NotConfigured, at)]) == ShowNotConfigured
    ensures Since(history) == [] || Failures(Since(history)) >= 2 ==>
              StatusOf(history + [Sample(Failed, at)]) == ShowUnreachable
    ensures Since(history) != [] && Failures(Since(history)) < 2 ==>
              StatusOf(history + [Sample(Failed, at)]) == StatusOf(history)
  {
    var s := Since(history);
    SinceNext(history, Sample(Ok, at));
    SinceNext(history, Sample(Degraded, at));
    SinceNext(history, Sample(NotConfigured, at));
    SinceNext(history, Sample(Failed, at));
    AnswerAdds(s, Sample(Ok, at));
    AnswerAdds(s, Sample(Degraded, at));
    FailureAdds(s, Sample(Failed, at));
  }
}
