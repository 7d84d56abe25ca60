/** How PING commands and their acknowledgements are matched. */
module PingTheorems {
  import opened Frames
  import opened ConnectionSpec
  import opened Runs
  import opened Actions
  import opened Ledger

  const UINT64 := 0x1_0000_0000_0000_0000

  ghost predicate Answered(pongs: seq<(u64, nat)>, payload: int) {
    exists k :: 0 <= k < |pongs| && pongs[k].0 == payload
  }

  /** The n-th PING carries n; what is pending is what was issued and not answered; each is answered at most once. */
  ghost predicate Matched(pings: seq<nat>, pending: map<u64, nat>, pongs: seq<(u64, nat)>) {
    && (forall p: u64 :: p in pending <==> p < |pings| && !Answered(pongs, p))
    && (forall p <- pending :: p < |pings| && pending[p] == pings[p])
    && (forall k :: 0 <= k < |pongs| ==> pongs[k].0 < |pings| && pongs[k].1 == pings[pongs[k].0])
    && (forall j, k :: 0 <= j < k < |pongs| ==> pongs[j].0 != pongs[k].0)
  }

  /** Until the payload wraps around. */
  ghost predicate PingsMatch(c: Connection) {
    && c.nextPingId == |c.hist.pings| % UINT64
    && (|c.hist.pings| <= UINT64 ==> Matched(c.hist.pings, c.pendingPings, c.hist.pongs))
  }

  lemma IssueMatches(pings: seq<nat>, pending: map<u64, nat>, pongs: seq<(u64, nat)>, id: nat)
    requires Matched(pings, pending, pongs) && |pings| < UINT64
    ensures Matched(pings + [id], pending[|pings| := id], pongs)
  {
    var p: u64 := |pings|;
    assert forall k :: 0 <= k < |pongs| ==> pongs[k].0 != p;
  }

  lemma AnswerMatches(pings: seq<nat>, pending: map<u64, nat>, pongs: seq<(u64, nat)>, p: u64)
    requires Matched(pings, pending, pongs) && p in pending
    ensures Matched(pings, pending - {p}, pongs + [(p, pending[p])])
  {
    var pongs' := pongs + [(p, pending[p])];
    assert pongs'[|pongs|].0 == p;
    forall q: u64 ensures Answered(pongs', q) <==> Answered(pongs, q) || q == p {
      if Answered(pongs, q) {
        var k :| 0 <= k < |pongs| && pongs[k].0 == q;
        assert pongs'[k].0 == q;
      }
    }
  }

  lemma ActMatches(c: Connection, a: Action)
    requires Sound(c) && PingsMatch(c) && Act(c, a).Ok?
    ensures PingsMatch(Act(c, a).value)
  {
    hide Matched, Sound;
    if a.Pings? {
      if |c.hist.pings| < UINT64 {
        IssueMatches(c.hist.pings, c.pendingPings, c.hist.pongs, a.ping);
      }
      NextPing(|c.hist.pings|);
    } else if a.Pongs? {
      if a.ack && a.payload in c.pendingPings && |c.hist.pings| <= UINT64 {
        AnswerMatches(c.hist.pings, c.pendingPings, c.hist.pongs, a.payload);
      }
    } else {
      ActOnPings(c, a);
      hide Act;
    }
  }

  lemma NextPing(n: nat)
    ensures (n % UINT64 + 1) % UINT64 == (n + 1) % UINT64
    ensures n < UINT64 ==> n % UINT64 == n
  {
  }

  lemma StepMatches(c: Connection, i: Input)
    requires Sound(c) && PingsMatch(c) && WellFormed(c) && Step(c, i).Ok?
    ensures PingsMatch(Step(c, i).value)
  {
    hide Step, Sound, PingsMatch, Act, Belongs;
    forall c1, a | Sound(c1) && PingsMatch(c1) && Belongs(i.event, a) && Act(c1, a).Ok?
      ensures PingsMatch(Act(c1, a).value)
    {
      ActMatches(c1, a);
    }
    StepKeepsInvariant(c, i, c1 => PingsMatch(c1));
  }

  lemma {:induction false} RunMatches(states: seq<Connection>, inputs: seq<Input>, k: nat)
    requires IsRun(states, inputs) && k < |states|
    ensures PingsMatch(states[k])
  {
    hide IsRun, Step, Sound, Valid, Legal, WellFormed, PingsMatch, NewConnection;
    if k == 0 {
      RunShape(states, inputs);
      NothingIssued();
    } else {
      RunMatches(states, inputs, k - 1);
      RunStep(states, inputs, k);
      StepMatches(states[k - 1], inputs[k - 1]);
    }
  }

  lemma NothingIssued()
    ensures PingsMatch(NewConnection())
  {
  }

  /**
   In every state before the 64-bit payload wraps around: the pending PINGs are exactly those issued and not answered,
   all with payloads below the next one, and every PING command was completed at most once, by its own payload.
   */
  lemma PendingPingsAreExact(states: seq<Connection>, inputs: seq<Input>, k: nat)
    requires IsRun(states, inputs) && k < |states| && |states[k].hist.pings| < UINT64
    ensures var c := states[k];
            && Matched(c.hist.pings, c.pendingPings, c.hist.pongs)
            && c.nextPingId == |c.hist.pings|
            && forall p <- c.pendingPings :: p < c.nextPingId
  {
    RunMatches(states, inputs, k);
    NextPing(|states[k].hist.pings|);
    hide IsRun;
  }

  /** Where every PING command is executed once, none is completed twice. */
  lemma PingsCompleteOnce(states: seq<Connection>, inputs: seq<Input>, k: nat, m: nat, n: nat)
    requires IsRun(states, inputs) && k < |states| && |states[k].hist.pings| < UINT64
    requires forall x, y :: 0 <= x < y < |states[k].hist.pings| ==> states[k].hist.pings[x] != states[k].hist.pings[y]
    requires m < n < |states[k].hist.pongs|
    ensures states[k].hist.pongs[m].1 != states[k].hist.pongs[n].1
  {
    RunMatches(states, inputs, k);
    var h := states[k].hist;
    assert h.pongs[m].0 != h.pongs[n].0;
    hide IsRun;
  }

  /**
   A PING command is completed by nothing but the acknowledgement that carries a pending payload, which then is pending
   no more.
   */
  lemma OnlyAnAckCompletes(c: Connection, i: Input)
    requires Sound(c) && WellFormed(c) && Step(c, i).Ok?
    ensures var c' := Step(c, i).value;
            if i.event.Received? && i.event.frame.Ping? && i.event.frame.streamId == 0 && i.event.frame.ack
               && i.event.frame.payload in c.pendingPings
            then var p := i.event.frame.payload;
                 c'.hist.pongs == c.hist.pongs + [(p, c.pendingPings[p])] && c'.pendingPings == c.pendingPings - {p}
            else c'.hist.pongs == c.hist.pongs
  {
    hide Sound;
    if i.event.Received? && i.event.frame.Ping? && i.event.frame.streamId == 0 {
      hide Belongs;
    } else {
      hide Step;
      forall c1, a | Sound(c1) && c1.hist.pongs == c.hist.pongs && Belongs(i.event, a) && Act(c1, a).Ok?
        ensures Act(c1, a).value.hist.pongs == c.hist.pongs
      {
        assert !a.Pongs?;
        if a.Pings? {
          hide Belongs;
        } else {
          ActOnPings(c1, a);
          hide Act, Belongs;
        }
      }
      hide Act;
      StepKeepsInvariant(c, i, (c1: Connection) => c1.hist.pongs == c.hist.pongs);
    }
  }

  // ---------------------------------------------------------------- the bound is needed

  /** After 2^64 PINGs the payload 0 is used again: a command that waits under it is forgotten. */
  lemma WrappedPayloadForgets(c: Connection, cmd: nat)
    requires PingsMatch(c) && |c.hist.pings| == UINT64 && !Answered(c.hist.pongs, 0)
    ensures 0 in c.pendingPings && c.pendingPings[0] == c.hist.pings[0]
    ensures ExecutePing(c, cmd).pendingPings == c.pendingPings[0 := cmd]
    ensures cmd != c.hist.pings[0] ==>
            !Matched(ExecutePing(c, cmd).hist.pings, ExecutePing(c, cmd).pendingPings, c.hist.pongs)
  {
    var c' := ExecutePing(c, cmd);
    assert c'.hist.pings[0] == c.hist.pings[0];
  }
}
