/** The life of a stream over a whole run, against the diagram of RFC 7540, section 5.1. */
module LifecycleTheorems {
  import opened Wrappers
  import opened Frames
  import opened StreamState
  import opened StreamSpec
  import opened ConnectionSpec
  import opened Runs
  import SL = StreamLemmas

  /**
   Every state that was set, from the creation of the stream on, is reached over an arrow of the diagram or by a reset
   while idle.
   */
  ghost predicate FollowsDiagram(path: seq<State>) {
    && path != [] && path[0] == Idle
    && (forall n :: 0 <= n < |path| ==> path[n] != ReservedLocal)
    && (forall m, n :: 0 <= m < n < |path| && n == m + 1 ==>
          Arrow(path[m], path[n]) || IdleReset(path[m], path[n]) || path[m] == path[n] == Closed)
  }

  lemma LifetimeFollowsDiagram(path: seq<State>)
    requires Lifetime(path)
    ensures FollowsDiagram(path)
  {
    forall n | 0 <= n < |path| ensures path[n] != ReservedLocal {
      if n > 0 {
        assert Move(path[n - 1], path[n]);
      }
    }
    forall m, n | 0 <= m < n < |path| && n == m + 1
      ensures Arrow(path[m], path[n]) || IdleReset(path[m], path[n]) || path[m] == path[n] == Closed
    {
      assert Move(path[m], path[n]);
    }
  }

  /** Over any run, a stream follows the diagram, never moves back in rank, and never leaves CLOSED. */
  lemma LifecycleIsMonotone(states: seq<Connection>, inputs: seq<Input>, j: nat, k: nat, h: nat)
    requires IsRun(states, inputs) && j <= k < |states| && h < |states[j].store|
    ensures h < |states[k].store|
    ensures var (s, s') := (states[j].store[h], states[k].store[h]);
            && FollowsDiagram(s.hist.path) && FollowsDiagram(s'.hist.path) && s.hist.path <= s'.hist.path
            && s.hist.path[|s.hist.path| - 1] == s.state && s'.hist.path[|s'.hist.path| - 1] == s'.state
            && Rank(s.state) <= Rank(s'.state)
            && (s.state != s'.state ==> Rank(s.state) < Rank(s'.state))
            && (s.state == Closed ==> s'.state == Closed)
            && s'.state != ReservedLocal
  {
    hide IsRun, FollowsDiagram, Walk, SL.Valid, SL.Bytes;
    RunGrows(states, inputs, j, k);
    assert StreamGrows(states[j].store[h], states[k].store[h]);
    hide Grows;
    RunStream(states, inputs, j, h);
    RunStream(states, inputs, k, h);
    var (s, s') := (states[j].store[h], states[k].store[h]);
    ValidFollows(s);
    ValidFollows(s');
    var (m, n) := (|s.hist.path| - 1, |s'.hist.path| - 1);
    assert s'.hist.path[m] == s.hist.path[m];
    WalkRises(s'.hist.path, m, n);
  }

  lemma ValidFollows(s: Stream)
    requires SL.Valid(s)
    ensures FollowsDiagram(s.hist.path) && Walk(s.hist.path) && s.hist.path != []
    ensures s.hist.path[|s.hist.path| - 1] == s.state && s.state != ReservedLocal
  {
    LifetimeFollowsDiagram(s.hist.path);
    SL.NotReservedLocal(s);
    hide FollowsDiagram, Walk;
  }

  // ---------------------------------------------------------------- the move outside the diagram

  /** A frame closes an idle stream exactly when the client refuses it or cannot read its header block. */
  lemma IdleStreamsCloseByRefusal(v: View, f: Frame)
    requires SL.Valid(v.s) && v.s.state == Idle && v.s.pending == []
    ensures ReceiveFrame(v, f).Ok?
    ensures ReceiveFrame(v, f).value.s.state == Closed <==>
            f.Data? || f.RstStream? || ((f.Headers? || f.PushPromise?) && !f.endHeaders)
    ensures (f.Headers? && f.endHeaders) || f.WindowUpdate? ==> ReceiveFrame(v, f).value.s.state == Idle
    ensures f.PushPromise? && f.endHeaders ==> ReceiveFrame(v, f).value.s.state == ReservedRemote
  {
    hide Dispatch, CloseWithError, SL.Valid, SL.Keeps;
    SL.ReceiveFrameKeeps(v, f);
    if f.Data? {
      SL.CloseWithErrorKeeps(v, STREAM_CLOSED);
    } else {
      var v1 := v.(s := SetStates(v.s, Incoming(v.s.state, f).value));
      SL.IncomingValid(v.s, f);
      SL.DispatchKeeps(v1, f);
      if f.WindowUpdate? {
        SL.CreditKeeps(v1, f);
        assert ProcessPending(SL.Credited(v1, f)) == Ok(SL.Credited(v1, f));
      }
    }
  }
}
