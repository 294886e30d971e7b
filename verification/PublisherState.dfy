// WebRTCSource.active: track arrivals and connection-state changes come from
// goroutines with no order between them.
module PublisherState {
  datatype Connection = Fresh | Connecting | Connected | Disconnected | ConnFailed | ConnClosed

  predicate PublisherGone(c: Connection) {
    c == ConnFailed || c == ConnClosed
  }

  datatype Event = TrackArrived | StateChanged(to: Connection)

  datatype Flags = Flags(active: bool, gone: bool)

  function Apply(f: Flags, e: Event): Flags {
    match e
    case TrackArrived => if f.gone then f else f.(active := true)
    case StateChanged(c) => if PublisherGone(c) then Flags(false, true) else f
  }

  class WebRTCSource {
    var active: bool
    var gone: bool  // sticky

    ghost function View(): Flags
      reads this
    {
      Flags(active, gone)
    }

    constructor ()
      ensures View() == Flags(false, false)
    {
      active, gone := false, false;
    }

    method RecordTrack() returns (accepted: bool)
      modifies this
      ensures View() == Apply(old(View()), TrackArrived)
      ensures accepted <==> !old(gone)
    {
      if gone {
        return false;
      }
      active := true;
      return true;
    }

    method ConnectionStateChanged(state: Connection)
      modifies this
      ensures View() == Apply(old(View()), StateChanged(state))
    {
      if !PublisherGone(state) {
        return;
      }
      gone := true;
      active := false;
    }
  }

  /** The connection failed or was closed. */
  predicate Ends(e: Event) {
    e == StateChanged(ConnFailed) || e == StateChanged(ConnClosed)
  }

  lemma EndsNext(history: seq<Event>, e: Event)
    ensures (exists i :: 0 <= i < |history + [e]| && Ends((history + [e])[i]))
            <==> Ends(e) || exists i :: 0 <= i < |history| && Ends(history[i])
    ensures TrackArrived in history + [e] <==> e == TrackArrived || TrackArrived in history
  {
    var all := history + [e];
    assert all[|history|] == e;
    if i :| 0 <= i < |history| && Ends(history[i]) {
      assert Ends(all[i]);
    }
  }

  function Run(history: seq<Event>): Flags {
    if history == [] then Flags(false, false) else Apply(Run(history[..|history| - 1]), history[|history| - 1])
  }

  /** Over any order of arrivals and state changes a source is active exactly when a
      track has arrived and the connection has never failed or closed: a late track
      cannot revive it, and a mere disconnect does not end it. */
  lemma {:induction false} ActiveIffNeverGone(history: seq<Event>)
    ensures Run(history).gone <==> exists i :: 0 <= i < |history| && Ends(history[i])
    ensures Run(history).active <==> TrackArrived in history && !Run(history).gone
  {
    if history != [] {
      var n := |history| - 1;
      ActiveIffNeverGone(history[..n]);
      EndsNext(history[..n], history[n]);
      assert history[..n] + [history[n]] == history;
    }
  }
}
