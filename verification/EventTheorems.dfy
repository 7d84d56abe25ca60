/** Every event of every run has exactly its effect; what follows for resets, refusals and promises. */
module EventTheorems {
  import opened Wrappers
  import opened Frames
  import opened StreamState
  import opened StreamSpec
  import opened ConnectionSpec
  import opened Runs
  import opened Actions
  import opened Ledger
  import opened ReplyTheorems
  import opened CommandTheorems
  import HL = HonestLemmas
  import SL = StreamLemmas

  /** What an event does, whichever it is. */
  ghost predicate EventEffect(c: Connection, e: Event, c': Connection)
    requires WellFormed(c)
  {
    if e.Http? then CommandEffect(c, e.command, c')
    else if DrainsAll(e) then Drained(c, c') && OnlyData(c.writer.log, c'.writer.log)
    else if OfConnection(e) then ConnectionEffect(c, e, c')
    else if e.frame.PushPromise? then PromiseEffect(c, e.frame, c')
    else Effect(c, e.frame, c') && (e.frame.WindowUpdate? ==> OnlyData(c.writer.log, c'.writer.log))
  }

  lemma HonestNotGivenUp(c: Connection)
    requires HL.AllHonest(c)
    ensures NoneGivenUp(c)
  {
    forall h | 0 <= h < |c.store| ensures NotGivenUp(c.store[h]) {
      assert HL.Honest(c.store[h], c.writer.completions);
    }
    hide HL.Told;
  }

  lemma StepHasEffect(c: Connection, i: Input)
    requires Sound(c) && WellFormed(c) && NoneGivenUp(c) && Legal(c, i) && Step(c, i).Ok?
    ensures EventEffect(c, i.event, Step(c, i).value)
  {
    hide Sound, NoneGivenUp, Legal, CommandEffect, Drained, OnlyData, ConnectionEffect, PromiseEffect, Effect;
    var e := i.event;
    if e.Http? {
      CommandHasEffect(c, i);
    } else if DrainsAll(e) {
      CreditForAll(c, i);
    } else if OfConnection(e) {
      ConnectionAnswers(c, i);
    } else {
      StepIsForStream(c, i);
      hide Step;
      if e.frame.PushPromise? {
        PromiseRouting(c, e.frame);
        PromiseHasEffect(c, e.frame);
      } else {
        FrameHasEffect(c, e.frame);
        NoData(c.writer.log);
      }
    }
  }

  lemma StepIsForStream(c: Connection, i: Input)
    requires WellFormed(c) && i.event.Received? && i.event.frame.GetStreamId() != 0
    ensures Step(c, i) == HandleForStream(c, i.event.frame)
  {
    hide HandleForStream;
  }

  /** In every run, every event has the effect that is written out for it, on the wire, the streams and the commands. */
  lemma EveryEventHasItsEffect(states: seq<Connection>, inputs: seq<Input>, k: nat)
    requires IsRun(states, inputs) && k + 1 < |states|
    ensures |states| == |inputs| + 1 && WellFormed(states[k])
    ensures EventEffect(states[k], inputs[k].event, states[k + 1])
  {
    hide IsRun, Step, Sound, Valid, Legal, WellFormed, EventEffect, HL.AllHonest, NoneGivenUp;
    RunStep(states, inputs, k + 1);
    HL.RunHonest(states, inputs, k);
    HonestNotGivenUp(states[k]);
    StepHasEffect(states[k], inputs[k]);
  }

  // ---------------------------------------------------------------- resets

  predicate ReceivesReset(e: Event, id: StreamId) {
    e.Received? && e.frame.RstStream? && e.frame.streamId == id
  }

  /** The log has gained an RST_STREAM for stream `id`. */
  ghost predicate SendsReset(log: seq<Frame>, log': seq<Frame>, id: StreamId) {
    exists m :: |log| <= m < |log'| && log'[m].RstStream? && log'[m].streamId == id
  }

  /** A stream object is given up only by an RST_STREAM, received or sent. */
  ghost predicate Excused(c: Connection, e: Event, c': Connection, h: nat)
    requires h < |c'.store|
  {
    var (s', id) := (c'.store[h], c'.store[h].id);
    s'.err.None? || (h < |c.store| && c.store[h].err == s'.err) || ReceivesReset(e, id)
    || SendsReset(c.writer.log, c'.writer.log, id)
  }

  ghost predicate AllExcused(c: Connection, e: Event, c': Connection) {
    forall h :: 0 <= h < |c'.store| ==> Excused(c, e, c', h)
  }

  lemma OneExcuses(c: Connection, e: Event, c': Connection, id: StreamId)
    requires Known(c', id) && OnlyStream(c, id, c'.store[c'.streams[id]], c')
    requires Excused(c, e, c', c'.streams[id])
    ensures AllExcused(c, e, c')
  {
    hide SendsReset;
  }

  lemma ResetIsNew(log: seq<Frame>, a: seq<Frame>, f: Frame, b: seq<Frame>)
    requires f.RstStream?
    ensures SendsReset(log, log + a + [f] + b, f.streamId)
  {
    assert (log + a + [f] + b)[|log + a|] == f;
  }

  lemma ErrorNeedsReset(s: Stream, f: Frame)
    requires StreamAfter(s, f).err != s.err && !f.RstStream?
    ensures StreamAfter(s, f).id == s.id && exists code :: Reply(s, f) == [RstStream(s.id, code)]
  {
    assert Reply(s, f) == [RstStream(s.id, 5)] || Reply(s, f) == [RstStream(s.id, 7)];
  }

  lemma FrameExcuses(c: Connection, f: Frame, c': Connection)
    requires Sound(c) && NoneGivenUp(c) && !f.PushPromise? && Effect(c, f, c')
    ensures AllExcused(c, Received(f), c')
  {
    hide Sound, NoneGivenUp, SL.Valid, ConnectionReply, SendsReset, Reply, Results, Verdicts, StreamAfter, OnlyStream,
         NotGivenUp, Excused;
    var id := f.GetStreamId();
    StreamForIsValid(c, id);
    ExcusedTarget(c, f, c');
    OneExcuses(c, Received(f), c', id);
  }

  lemma ExcusedTarget(c: Connection, f: Frame, c': Connection)
    requires !f.PushPromise? && Effect(c, f, c') && StreamFor(c, f.GetStreamId()).id == f.GetStreamId()
    ensures var id := f.GetStreamId();
            && Known(c', id) && OnlyStream(c, id, c'.store[c'.streams[id]], c')
            && Excused(c, Received(f), c', c'.streams[id])
  {
    hide ConnectionReply, SendsReset, Reply, Results, Verdicts, StreamAfter;
    var (id, s) := (f.GetStreamId(), StreamFor(c, f.GetStreamId()));
    if !Ignored(c, f) && !f.WindowUpdate? && !f.RstStream? && StreamAfter(s, f).err != s.err {
      ErrorNeedsReset(s, f);
      var code :| Reply(s, f) == [RstStream(s.id, code)];
      ResetIsNew(c.writer.log, ConnectionReply(c, f), RstStream(s.id, code), []);
      assert c'.writer.log == c.writer.log + ConnectionReply(c, f) + [RstStream(s.id, code)] + [];
    } else {
      StreamAfterKeepsId(s, f);
    }
  }

  lemma StreamAfterKeepsId(s: Stream, f: Frame)
    ensures StreamAfter(s, f).id == s.id
  {
  }

  lemma PromiseExcuses(c: Connection, f: Frame, c': Connection)
    requires Sound(c) && NoneGivenUp(c) && f.PushPromise? && PromiseEffect(c, f, c')
    ensures AllExcused(c, Received(f), c')
  {
    if Attended(c, f) {
      var (id, p) := (f.promisedStreamId, StreamFor(c, f.promisedStreamId));
      StreamForIsValid(c, id);
      hide Sound, NoneGivenUp, SL.Valid, SendsReset, Excused;
      PromiseAnswersReset(c, f, c');
      OneExcuses(c, Received(f), c', id);
    }
  }

  lemma PromiseAnswersReset(c: Connection, f: Frame, c': Connection)
    requires f.PushPromise? && PromiseEffect(c, f, c') && Attended(c, f)
    requires StreamFor(c, f.promisedStreamId).id == f.promisedStreamId
    ensures Excused(c, Received(f), c', c'.streams[f.promisedStreamId])
  {
    var (id, p) := (f.promisedStreamId, StreamFor(c, f.promisedStreamId));
    var (s', log, reply) := (c'.store[c'.streams[id]], c.writer.log, Reply(p, f));
    hide SendsReset;
    if Unwanted(p, f) {
      ResetIsNew(log, reply, RstStream(id, 7), []);
      assert log + reply + [RstStream(id, 7)] + [] == c'.writer.log;
    } else if s'.err != p.err {
      assert reply == [reply[0]] && reply[0].RstStream? && reply[0].streamId == id;
      ResetIsNew(log, [], reply[0], []);
      assert log + [] + [reply[0]] + [] == c'.writer.log;
    }
  }

  lemma SameErrors(c: Connection, e: Event, c': Connection)
    requires forall h :: 0 <= h < |c'.store| ==>
               c'.store[h].err.None? || (h < |c.store| && c.store[h].err == c'.store[h].err)
    ensures AllExcused(c, e, c')
  {
    hide SendsReset;
  }

  lemma CommandExcuses(c: Connection, cmd: HttpCommand, c': Connection)
    requires WellFormed(c) && CommandEffect(c, cmd, c')
    ensures AllExcused(c, Http(cmd), c')
  {
    hide FindHeader, SL.AllFor;
    forall h | 0 <= h < |c'.store|
      ensures c'.store[h].err.None? || (h < |c.store| && c.store[h].err == c'.store[h].err)
    {
      if Sent(c, cmd, c') && h < |c.store| {
        assert c'.store[h] == c'.store[..|c.store|][h];
      }
    }
    SameErrors(c, Http(cmd), c');
  }

  lemma EventExcuses(c: Connection, e: Event, c': Connection)
    requires Sound(c) && WellFormed(c) && NoneGivenUp(c) && EventEffect(c, e, c')
    ensures AllExcused(c, e, c')
  {
    hide Sound, NoneGivenUp, CommandEffect, PromiseEffect, Effect, AllExcused, OnlyData;
    if e.Http? {
      CommandExcuses(c, e.command, c');
    } else if DrainsAll(e) || OfConnection(e) {
      SameErrors(c, e, c');
    } else if e.frame.PushPromise? {
      PromiseExcuses(c, e.frame, c');
    } else {
      FrameExcuses(c, e.frame, c');
    }
  }

  /** Between two states no RST_STREAM for the stream has been received or sent. */
  ghost predicate NoReset(states: seq<Connection>, inputs: seq<Input>, j: nat, k: nat, id: StreamId)
    requires j <= k < |states| == |inputs| + 1
  {
    && (forall n :: j <= n < k ==> !ReceivesReset(inputs[n].event, id))
    && !SendsReset(states[j].writer.log, states[k].writer.log, id)
  }

  lemma NoResetBefore(states: seq<Connection>, inputs: seq<Input>, j: nat, k: nat, id: StreamId)
    requires j < k < |states| == |inputs| + 1 && NoReset(states, inputs, j, k, id)
    requires states[j].writer.log <= states[k - 1].writer.log <= states[k].writer.log
    ensures NoReset(states, inputs, j, k - 1, id)
    ensures !SendsReset(states[k - 1].writer.log, states[k].writer.log, id)
  {
    var (a, b, d) := (states[j].writer.log, states[k - 1].writer.log, states[k].writer.log);
    forall m | |a| <= m < |b| ensures !(b[m].RstStream? && b[m].streamId == id) {
      assert d[m] == b[m];
    }
  }

  /** Without an RST_STREAM, received or sent, a stream has no error. */
  lemma {:induction false} NoResetNoError(states: seq<Connection>, inputs: seq<Input>, j: nat, k: nat, h: nat)
    requires IsRun(states, inputs) && j <= k < |states| && h < |states[k].store|
    requires h < |states[j].store| ==> states[j].store[h].err.None?
    requires |states| == |inputs| + 1 && NoReset(states, inputs, j, k, states[k].store[h].id)
    ensures states[k].store[h].err.None?
    decreases k
  {
    hide IsRun, Step, Sound, Valid, Legal, WellFormed, EventEffect, HL.AllHonest, NoneGivenUp, NoReset, SendsReset;
    if j < k && states[k].store[h].err.Some? {
      var (c, c', i) := (states[k - 1], states[k], inputs[k - 1]);
      var id := c'.store[h].id;
      RunStep(states, inputs, k);
      HL.RunHonest(states, inputs, k - 1);
      HonestNotGivenUp(c);
      StepHasEffect(c, i);
      EventExcuses(c, i.event, c');
      RunGrows(states, inputs, j, k - 1);
      RunGrows(states, inputs, k - 1, k);
      NoResetBefore(states, inputs, j, k, id);
      assert Excused(c, i.event, c', h);
      if h < |c.store| {
        assert StreamGrows(c.store[h], c'.store[h]);
        NoResetNoError(states, inputs, j, k - 1, h);
      }
      assert !ReceivesReset(i.event, id) by { NotReceived(states, inputs, j, k, id); }
    }
  }

  lemma NotReceived(states: seq<Connection>, inputs: seq<Input>, j: nat, k: nat, id: StreamId)
    requires j < k < |states| == |inputs| + 1 && NoReset(states, inputs, j, k, id)
    ensures !ReceivesReset(inputs[k - 1].event, id)
  {
    hide SendsReset;
  }

  // ---------------------------------------------------------------- silence

  /** No stream has closed in silence meanwhile. */
  ghost predicate Aloud(c: Connection, c': Connection) {
    && |c.store| <= |c'.store|
    && forall h :: 0 <= h < |c'.store| ==>
         (c'.store[h].hist.silentClose <==> h < |c.store| && c.store[h].hist.silentClose)
  }

  lemma PutAloud(c: Connection, h: nat, v: View)
    requires h < |c.store| && v.s.hist.silentClose == c.store[h].hist.silentClose
    ensures Aloud(c, Put(c, h, v))
  {
  }

  lemma AddAloud(c: Connection, c': Connection, s: Stream)
    requires c'.store == c.store + [s] && !s.hist.silentClose
    ensures Aloud(c, c')
  {
  }

  lemma SameAloud(c: Connection, c': Connection)
    requires c'.store == c.store
    ensures Aloud(c, c')
  {
  }

  lemma AloudThen(a: Connection, b: Connection, c: Connection)
    requires Aloud(a, b) && Aloud(b, c)
    ensures Aloud(a, c)
  {
  }

  lemma KeepsAloud(v: View, v': View)
    requires SL.Keeps(v, v')
    ensures v'.s.hist.silentClose == v.s.hist.silentClose
  {
  }

  lemma DeliversAloud(c: Connection, id: StreamId, f: Frame)
    requires Sound(c) && Known(c, id) && ReceiveOn(c, c.streams[id], f).Ok?
    ensures Aloud(c, ReceiveOn(c, c.streams[id], f).value)
  {
    hide ReceiveFrame, SL.Keeps, SL.Valid;
    Lookup(c, id);
    hide Sound;
    var v := ViewOf(c, c.streams[id]);
    SL.ReceiveFrameKeeps(v, f);
    KeepsAloud(v, ReceiveFrame(v, f).value);
  }

  lemma RefusesAloud(c: Connection, id: StreamId)
    requires Sound(c) && Known(c, id)
    ensures CloseWithError(ViewOf(c, c.streams[id]), REFUSED_STREAM).Ok?
    ensures Aloud(c, Put(c, c.streams[id], CloseWithError(ViewOf(c, c.streams[id]), REFUSED_STREAM).value))
  {
    hide CloseWithError, SL.Keeps, SL.Valid;
    Lookup(c, id);
    hide Sound;
    var v := ViewOf(c, c.streams[id]);
    SL.CloseWithErrorKeeps(v, REFUSED_STREAM);
    KeepsAloud(v, CloseWithError(v, REFUSED_STREAM).value);
  }

  lemma ActAloud(c: Connection, a: Action)
    requires Sound(c) && Act(c, a).Ok? && !a.Drains?
    ensures Aloud(c, Act(c, a).value)
  {
    hide Sound, Aloud, ReceiveOn, CloseWithError, DoRequest, TakeFromCache, GetOrCreate;
    SameAloud(c, c);
    match a {
      case Delivers(id, f) => if Known(c, id) { DeliversAloud(c, id, f); }
      case Refuses(id) => if Known(c, id) { RefusesAloud(c, id); }
      case Creates(id) => CreatesAloud(c, id);
      case Requests(cmd) =>
        var s := HL.RequestIs(c, cmd);
        AddAloud(c, DoRequest(c, cmd).value, s);
      case Takes(cmd, id) => if id in c.cache && c.cache[id] < |c.store| { TakesAloud(c, cmd, id); }
      case Drains(_) =>
      case _ =>
        PlainKeepsStore(c, a);
        hide Act;
        SameAloud(c, Act(c, a).value);
    }
  }

  lemma CreatesAloud(c: Connection, id: StreamId)
    ensures Aloud(c, GetOrCreate(c, id))
  {
  }

  lemma TakesAloud(c: Connection, cmd: HttpCommand, id: StreamId)
    requires id in c.cache && c.cache[id] < |c.store|
    ensures Aloud(c, TakeFromCache(c, cmd, id))
  {
    hide Finalize;
  }

  lemma StepAloud(c: Connection, i: Input)
    requires Sound(c) && WellFormed(c) && Step(c, i).Ok? && !DrainsAll(i.event)
    ensures Aloud(c, Step(c, i).value)
  {
    hide Step, Sound, Aloud, Act;
    SameAloud(c, c);
    forall c1, a | Sound(c1) && Aloud(c, c1) && Belongs(i.event, a) && Act(c1, a).Ok?
      ensures Aloud(c, Act(c1, a).value)
    {
      ActAloud(c1, a);
      AloudThen(c, c1, Act(c1, a).value);
    }
    StepKeepsInvariant(c, i, c1 => Aloud(c, c1));
  }

  /** Event `n` is credit for the connection as a whole, and closes the stream. */
  predicate ClosedByCredit(states: seq<Connection>, inputs: seq<Input>, n: nat, h: nat)
    requires n + 1 < |states| == |inputs| + 1
  {
    && DrainsAll(inputs[n].event) && h < |states[n].store| && h < |states[n + 1].store|
    && states[n].store[h].state != Closed && states[n + 1].store[h].state == Closed
  }

  /** A stream has closed in silence exactly if credit for the connection as a whole has closed it. */
  lemma {:induction false} SilenceIsCredit(states: seq<Connection>, inputs: seq<Input>, k: nat, h: nat)
    requires IsRun(states, inputs) && k < |states| && h < |states[k].store|
    ensures |states| == |inputs| + 1
    ensures states[k].store[h].hist.silentClose <==> exists n :: 0 <= n < k && ClosedByCredit(states, inputs, n, h)
  {
    hide IsRun, Step, Sound, Valid, Legal, WellFormed, ClosedByCredit;
    RunShape(states, inputs);
    if k > 0 {
      if h < |states[k - 1].store| {
        SilenceIsCredit(states, inputs, k - 1, h);
      } else {
        NotThereYet(states, inputs, k - 1, h);
      }
      LastSilence(states, inputs, k, h);
    }
  }

  /** One more event. */
  lemma LastSilence(states: seq<Connection>, inputs: seq<Input>, k: nat, h: nat)
    requires IsRun(states, inputs) && 0 < k < |states| == |inputs| + 1 && h < |states[k].store|
    ensures states[k].store[h].hist.silentClose <==>
            (h < |states[k - 1].store| && states[k - 1].store[h].hist.silentClose)
            || ClosedByCredit(states, inputs, k - 1, h)
  {
    hide IsRun, Step, Sound, Valid, Legal, WellFormed;
    var (c, c', i) := (states[k - 1], states[k], inputs[k - 1]);
    RunStep(states, inputs, k);
    assert states[k - 1 + 1] == c';
    if DrainsAll(i.event) {
      CreditForAll(c, i);
    } else {
      StepAloud(c, i);
    }
  }

  lemma NotThereYet(states: seq<Connection>, inputs: seq<Input>, k: nat, h: nat)
    requires IsRun(states, inputs) && k < |states| == |inputs| + 1 && |states[k].store| <= h
    ensures forall n :: 0 <= n < k ==> !ClosedByCredit(states, inputs, n, h)
  {
    forall n | 0 <= n < k ensures !ClosedByCredit(states, inputs, n, h) {
      RunGrows(states, inputs, n, k);
    }
    hide IsRun, StreamGrows;
  }
}
