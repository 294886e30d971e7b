// The write-error rule over whole runs: ten consecutive failed block writes, on
// either track, fail a recorder that is still open.
module RecorderErrors {
  import opened RecorderCore
  import opened RecorderMachine

  /** The last ten block writes across both tracks all failed. */
  predicate LastTenFailed(outcomes: seq<bool>) {
    && |outcomes| >= 10
    && forall i :: |outcomes| - 10 <= i < |outcomes| ==> !outcomes[i]
  }

  /** No earlier point of the run had ten failures in a row. */
  predicate NeverBefore(outcomes: seq<bool>) {
    forall k :: 0 <= k < |outcomes| ==> !LastTenFailed(outcomes[..k])
  }

  /** `streak` counts the failures at the end of `outcomes`. */
  predicate Counts(streak: nat, outcomes: seq<bool>) {
    && streak <= |outcomes|
    && (forall i :: |outcomes| - streak <= i < |outcomes| ==> !outcomes[i])
    && (streak < |outcomes| ==> outcomes[|outcomes| - streak - 1])
  }

  lemma StreakIsLastTen(streak: nat, outcomes: seq<bool>)
    requires Counts(streak, outcomes)
    ensures streak >= WRITE_ERROR_THRESHOLD <==> LastTenFailed(outcomes)
  {
    if streak < WRITE_ERROR_THRESHOLD && |outcomes| >= WRITE_ERROR_THRESHOLD {
      assert outcomes[|outcomes| - streak - 1];
    }
  }

  lemma CountsNext(streak: nat, outcomes: seq<bool>, ok: bool)
    requires Counts(streak, outcomes)
    ensures Counts(if ok then 0 else streak + 1, outcomes + [ok])
  {
  }

  lemma NeverBeforeNext(outcomes: seq<bool>, ok: bool)
    requires NeverBefore(outcomes) && !LastTenFailed(outcomes)
    ensures NeverBefore(outcomes + [ok])
  {
    var next := outcomes + [ok];
    forall k | 0 <= k < |next|
      ensures !LastTenFailed(next[..k])
    {
      if k < |outcomes| {
        assert next[..k] == outcomes[..k];
      } else {
        assert next[..k] == outcomes;
      }
    }
  }

  ghost predicate ErrorInv(s: Sys) {
    var o := s.hist.outcomes;
    && Counts(s.rec.gate.streak, o)
    && (s.writer == Failing(false) ==> LastTenFailed(o))
    && (!s.rec.gate.closed ==> NeverBefore(o) && (LastTenFailed(o) ==> s.writer == Failing(false)))
    && (s.cause == WriteErrors ==>
          LastTenFailed(o) && NeverBefore(o) && !s.writer.Writing? && !s.writer.Noting? && s.writer != Failing(false))
  }

  lemma NotedKeepsErrorInv(s: Sys)
    requires TeardownInv(s) && ErrorInv(s) && s.writer.Noting?
    ensures ErrorInv(NotedStep(s))
  {
    var o, ok := s.hist.outcomes, s.writer.ok;
    var t := NotedStep(s);
    CountsNext(s.rec.gate.streak, o, ok);
    StreakIsLastTen(t.rec.gate.streak, o + [ok]);
    if !s.rec.gate.closed {
      NeverBeforeNext(o, ok);
    }
    if ok {
      assert (o + [ok])[|o|];
    }
  }

  /** Without open tracks the writer hands over no block. */
  lemma NilTracksWriteNothing(r: Rec, item: Item)
    requires !r.gate.tracks
    ensures Blocks(Handle(r, item)) == Blocks(r)
  {
  }

  lemma ErrorStep(s: Sys, a: Action)
    requires TeardownInv(s) && ErrorInv(s)
    ensures ErrorInv(Step(s, a))
  {
    match a
    case Noted =>
      if s.writer.Noting? {
        NotedKeepsErrorInv(s);
      }
    case Assembled =>
      if s.writer.Holding? {
        HandleKeepsGate(s.rec, s.writer.item);
        if s.cause == WriteErrors {
          NilTracksWriteNothing(s.rec, s.writer.item);
        }
      }
    case _ =>
  }

  /** Over every run: a recorder still open has never had ten failures in a row,
      except in the instant before its writer fails it; one failed by write errors
      was failed at the first such point, and no block was written after it; and a
      streak that ends during a Finalise drain leaves it finished. */
  lemma {:induction false} WriteErrorRule(acts: seq<Action>)
    ensures var s := Exec(acts);
            && ErrorInv(s)
            && (!s.rec.gate.closed && s.writer != Failing(false) ==>
                  NeverBefore(s.hist.outcomes) && !LastTenFailed(s.hist.outcomes))
            && (s.cause == WriteErrors ==>
                  s.rec.gate.state == Failed && LastTenFailed(s.hist.outcomes) && NeverBefore(s.hist.outcomes))
            && (s.cause == Finalised ==> s.rec.gate.state == Finished)
  {
    Teardown(acts);
    if acts != [] {
      var init := acts[..|acts| - 1];
      Teardown(init);
      WriteErrorRule(init);
      ErrorStep(Exec(init), acts[|acts| - 1]);
    }
  }

  /** The other half: an open recorder whose last ten writes failed is failed, for
      write errors, by its writer's next step unless someone else closes it first. */
  lemma TenFailuresFail(acts: seq<Action>)
    requires var s := Exec(acts); !s.rec.gate.closed && LastTenFailed(s.hist.outcomes)
    ensures var t := Exec(acts + [FailLock]); t.cause == WriteErrors && t.rec.gate.state == Failed
  {
    WriteErrorRule(acts);
    ExecLast(acts, [FailLock]);
    assert acts + [FailLock][..0] == acts;
  }

  /** After a write-error failure no further block is handed to either track. */
  lemma {:induction false} NothingWrittenAfter(acts: seq<Action>, more: seq<Action>)
    requires Exec(acts).cause == WriteErrors
    ensures var s, t := Exec(acts), Exec(acts + more);
            && t.rec.video.out == s.rec.video.out && t.rec.audio.out == s.rec.audio.out
            && t.hist.outcomes == s.hist.outcomes
  {
    if more == [] {
      assert acts + more == acts;
    } else {
      var init := more[..|more| - 1];
      NothingWrittenAfter(acts, init);
      Teardown(acts);
      FinalStatesAbsorb(acts, init);
      WriteErrorRule(acts + init);
      Teardown(acts + init);
      ExecLast(acts, more);
      FailedWritesNothing(Exec(acts + init), more[|more| - 1]);
    }
  }

  lemma FailedWritesNothing(s: Sys, a: Action)
    requires TeardownInv(s) && ErrorInv(s) && s.cause == WriteErrors
    ensures var t := Step(s, a);
            && t.rec.video.out == s.rec.video.out && t.rec.audio.out == s.rec.audio.out
            && t.hist.outcomes == s.hist.outcomes
  {
  }
}
