// The timestamp bookkeeping one recorder track keeps in `uint32` RTP units, and
// the unbounded-integer ledger it is meant to compute.
//
// A recorder holds one `Clock` per track (the vp8* and opus* fields of
// WebMRecorder). The `Ledger` is the reference: it says in plain integers which
// part of the sender's clock has been removed from the file. Nothing in it wraps
// and it knows nothing of `pausedAt`.
module TrackClock {
  import opened Media

  datatype Clock = Clock(
    firstSeen: bool,
    first: u32,     // file baseline
    last: u32,      // last timestamp written
    shift: u32,     // pause shift
    lastSeen: u32,  // last timestamp that arrived, paused or not
    pausedAt: u32)  // `last` as it was at the last Pause

  const FRESH: Clock := Clock(false, 0, 0, 0, 0, 0)

  function See(c: Clock, ts: u32): Clock {
    c.(lastSeen := ts)
  }

  function Begin(c: Clock, ts: u32): Clock {
    if c.firstSeen then c else c.(firstSeen := true, first := ts)
  }

  function Rebase(c: Clock, ts: u32): Clock {
    c.(first := ts)
  }

  function Stamp(c: Clock, ts: u32): Clock {
    c.(last := ts)
  }

  function Hold(c: Clock): Clock {
    c.(pausedAt := c.last)
  }

  function Release(c: Clock): Clock {
    if c.firstSeen then c.(shift := Wrap32(c.shift + Wrap32(c.lastSeen - c.pausedAt))) else c
  }

  /** The wrapped difference the recorder converts to milliseconds. */
  function Position(c: Clock, ts: u32): u32 {
    Wrap32(Wrap32(ts - c.first) - c.shift)
  }

  /** A 90 kHz position in milliseconds. */
  function VideoMs(position: int): int {
    position * 1000 / 90000
  }

  /** A 48 kHz position in milliseconds. */
  function AudioMs(position: int): int {
    position * 1000 / 48000
  }

  /** 90 ticks of the video clock and 48 of the audio clock are a millisecond. */
  lemma WholeMilliseconds(position: nat, n: nat)
    ensures VideoMs(position) == n <==> 90 * n <= position < 90 * (n + 1)
    ensures AudioMs(position) == n <==> 48 * n <= position < 48 * (n + 1)
  {
  }

  // ---------------------------------------------------------------------------
  // The reference: what has been cut out of the sender's clock so far.
  // ---------------------------------------------------------------------------

  /** `mark` is the point of the sender's clock the file has reached, `removed`
      the time cut out before it, so the file is `mark - base - removed` long. */
  datatype Ledger = Ledger(started: bool, base: int, mark: int, removed: int, seen: int, wrote: bool)
  {
    function Cursor(): int {
      mark - base - removed
    }

    function See(t: int): Ledger {
      this.(seen := t)
    }

    function Start(t: int): Ledger {
      if started then this else Ledger(true, t, t, 0, seen, false)
    }

    function Write(t: int): Ledger {
      this.(mark := t, wrote := true)
    }

    /** Resuming cuts out everything between the mark and the last thing seen. */
    function Resume(): Ledger {
      if started then this.(removed := removed + (seen - mark), mark := seen, wrote := false) else this
    }

    /** Every number in play fits one turn of the 32-bit clock. */
    ghost predicate Sane() {
      started ==> 0 <= base <= mark <= seen < base + TWO32 && 0 <= removed && 0 <= Cursor()
    }
  }

  /** The clock holds the ledger's numbers, reduced modulo 2^32. */
  ghost predicate Agrees(c: Clock, l: Ledger) {
    l.started ==>
      && c.firstSeen
      && c.first == Wrap32(l.base)
      && c.shift == Wrap32(l.removed)
      && c.lastSeen == Wrap32(l.seen)
      && (l.wrote ==> c.last == Wrap32(l.mark))
  }

  /** Despite two wrapped subtractions, a write at or past the mark lands exactly
      on the ledger's position, at or after everything already in the file. */
  lemma WritePosition(c: Clock, l: Ledger, t: int)
    requires Agrees(c, l) && l.Sane() && l.started
    requires l.mark <= t < l.base + TWO32
    ensures Position(c, Wrap32(t)) == t - l.base - l.removed
    ensures l.Cursor() <= Position(c, Wrap32(t))
    ensures l.Write(t).Cursor() == Position(c, Wrap32(t))
    ensures Agrees(Stamp(c, Wrap32(t)), l.Write(t))
  {
    WrapTwice(t, l.base, l.removed);
  }

  lemma WrapTwice(t: int, base: int, removed: int)
    ensures Wrap32(Wrap32(Wrap32(t) - Wrap32(base)) - Wrap32(removed)) == Wrap32(t - base - removed)
  {
    WrapAdd(t, 0 - Wrap32(base));
    WrapSub(t, base);
    WrapAdd(t - base, 0 - Wrap32(removed));
    WrapSub(t - base, removed);
  }

  /** A packet from before the mark (one still queued when the recorder was paused)
      is placed before the end of the file, unless it underflows: then it wraps past
      the end. Only a packet at or past the mark is both in order and in place. */
  lemma LateWriteGoesBack(c: Clock, l: Ledger, t: int)
    requires Agrees(c, l) && l.Sane() && l.started
    requires l.base <= t < l.base + TWO32
    ensures l.Cursor() <= Position(c, Wrap32(t)) <==> l.mark <= t || t < l.base + l.removed
    ensures Position(c, Wrap32(t)) == t - l.base - l.removed <==> l.base + l.removed <= t
    ensures t < l.base + l.removed ==> Position(c, Wrap32(t)) == TWO32 + t - l.base - l.removed
  {
    WrapTwice(t, l.base, l.removed);
  }

  /** What Resume adds, in unbounded terms. */
  lemma ReleaseShift(c: Clock, removed: int, seen: int, at: int)
    requires c.firstSeen && c.shift == Wrap32(removed) && c.lastSeen == Wrap32(seen) && c.pausedAt == Wrap32(at)
    ensures Release(c).shift == Wrap32(removed + (seen - at))
  {
    WrapAdd(seen, 0 - Wrap32(at));
    WrapSub(seen, at);
    WrapAdd(removed, Wrap32(seen - at));
    WrapAdd(seen - at, removed);
  }

  /** Resume keeps the clock on the ledger exactly when the timestamp captured at
      Pause is the ledger's mark. */
  lemma ResumeAgreesIff(c: Clock, l: Ledger)
    requires Agrees(c, l) && l.Sane() && l.started
    ensures l.Resume().Sane() && l.Resume().Cursor() == l.Cursor()
    ensures Agrees(Release(c), l.Resume()) <==> c.pausedAt == Wrap32(l.mark)
  {
    ReleaseShift(c, l.removed, l.seen, c.pausedAt);
    WrapCancel(l.removed + l.seen, c.pausedAt, l.mark);
  }

  lemma WrapCancel(n: int, a: u32, b: int)
    ensures Wrap32(n - a) == Wrap32(n - b) <==> a == Wrap32(b)
  {
    WrapSub(n, b);
    WrapInjective(n - a, n - Wrap32(b));
  }

  /** Pausing a second time before anything is written captures the timestamp the
      first pause already captured, so the first gap is cut out twice. The clock
      stays on the ledger only if that gap was empty. */
  lemma SecondPauseCountsTheGapTwice(c: Clock, l: Ledger)
    requires Agrees(c, l) && l.Sane() && l.started && l.wrote
    ensures var c1, l1 := Release(Hold(c)), l.Resume();
            var c2, l2 := Release(Hold(c1)), l1.Resume();
            && Agrees(c1, l1)
            && c2.shift == Wrap32(l.removed + 2 * (l.seen - l.mark))
            && l2.removed == l.removed + (l.seen - l.mark)
            && (Agrees(c2, l2) <==> l.seen == l.mark)
  {
    var c1, l1 := Release(Hold(c)), l.Resume();
    ResumeAgreesIff(Hold(c), l);
    ResumeAgreesIff(Hold(c1), l1);
    WrapInjective(l.mark, l.seen);
    ReleaseShift(Hold(c1), l1.removed, l.seen, l.mark);
  }

  /** With no packet in between, Pause and Resume change the shift unless the last
      packet seen was the last one written. */
  lemma PauseAloneShiftsIff(c: Clock)
    ensures Release(Hold(c)).shift == c.shift <==> !c.firstSeen || c.lastSeen == c.last
    ensures c.firstSeen ==> Release(Hold(c)).shift == Wrap32(c.shift + Wrap32(c.lastSeen - c.last))
  {
  }

  /** A Resume after the first packet but before the first block shifts a baseline
      that is about to be reset: the first block starts at zero only if the last
      timestamp seen is zero. */
  lemma ResumeBeforeFirstBlock(c: Clock, ts: u32)
    requires c.firstSeen && c.shift == 0 && c.last == 0
    ensures Position(Rebase(Release(Hold(c)), ts), ts) == Wrap32(0 - c.lastSeen)
    ensures Position(Rebase(Release(Hold(c)), ts), ts) == 0 <==> c.lastSeen == 0
  {
  }
}
