/**
 The command of a closed stream was told what the stream has collected: an invariant; and what a request starts with.
 */
module HonestLemmas {
  import opened Wrappers
  import opened Frames
  import opened StreamState
  import opened StreamSpec
  import opened ConnectionSpec
  import opened RequestLemmas
  import opened Runs
  import opened Actions
  import opened Ledger
  import opened ReceiveTheorems
  import CT = CompletionTheorems
  import IT = IdTheorems
  import SL = StreamLemmas
  import WT = WireTheorems

  /** The result is what the stream has collected, unless the stream was reset. */
  predicate Tells(result: CommandResult, s: Stream) {
    result == Response(s.responseHeaders, s.responseBody) || (result.StreamFailure? && s.err.Some?)
  }

  ghost predicate Told(s: Stream, cs: seq<Completion>)
    requires s.command.Some?
  {
    exists k :: 0 <= k < |cs| && cs[k].command == s.command.value.id && Tells(cs[k].result, s)
  }

  /** Only a reset is an error, and the command of a stream that closed was told what the stream has collected. */
  ghost predicate Honest(s: Stream, cs: seq<Completion>) {
    && (s.state != Closed ==> s.err.None?)
    && (s.command.Some? && s.state == Closed && !s.hist.silentClose ==> Told(s, cs))
  }

  ghost predicate AllHonest(c: Connection) {
    forall h :: 0 <= h < |c.store| ==> Honest(c.store[h], c.writer.completions)
  }

  // ---------------------------------------------------------------- one stream

  /** What the stream has collected does not change any more. */
  predicate Final(s: Stream, s': Stream) {
    s'.responseHeaders == s.responseHeaders && s'.responseBody == s.responseBody && (s.err.Some? ==> s'.err.Some?)
  }

  /** The last completion is that of the stream, with what it has collected. */
  predicate ToldLast(s: Stream, cs: seq<Completion>) {
    s.command.Some? ==> cs != [] && cs[|cs| - 1] == Completion(s.command.value.id, SL.ResultOf(s))
  }

  /** How an operation on a stream keeps it honest. */
  predicate Tracks(v: View, v': View) {
    && (v.s.state == Closed ==> Final(v.s, v'.s))
    && (v'.s.state != Closed ==> v'.s.err == v.s.err)
    && (SL.Closes(v, v') ==> ToldLast(v'.s, v'.w.completions) || v'.s.hist.silentClose)
  }

  lemma TracksHonestly(v: View, v': View)
    requires Honest(v.s, v.w.completions) && Tracks(v, v') && v.w.completions <= v'.w.completions
    requires v'.s.command == v.s.command && (v.s.state == Closed ==> v'.s.state == Closed)
    requires v.s.hist.silentClose ==> v'.s.hist.silentClose
    ensures Honest(v'.s, v'.w.completions)
  {
    var (cs, cs') := (v.w.completions, v'.w.completions);
    if v'.s.command.Some? && v'.s.state == Closed && !v'.s.hist.silentClose {
      if v.s.state == Closed {
        var k :| 0 <= k < |cs| && cs[k].command == v.s.command.value.id && Tells(cs[k].result, v.s);
        assert cs'[k] == cs[k];
      } else {
        assert Tells(cs'[|cs'| - 1].result, v'.s);
      }
    }
  }

  lemma CloseTracks(v: View, code: ErrorCode)
    requires SL.Valid(v.s)
    ensures CloseWithError(v, code).Ok? && Tracks(v, CloseWithError(v, code).value)
  {
    SL.CloseWithErrorKeeps(v, code);
    hide CloseWithError, SL.Valid, SL.Keeps;
  }

  /** The handler of an accepted frame. */
  lemma DispatchTracks(v: View, f: Frame)
    requires SL.Valid(v.s) && Dispatch(v, f).Ok?
    ensures var s := Dispatch(v, f).value.s;
            && (f.RstStream? ==> s.state == v.s.state)
            && (!f.RstStream? && s.state != Closed ==> s.err == v.s.err)
            && (!f.Data? && !f.Headers? && !f.PushPromise? ==> Final(v.s, s))
  {
    match f {
      case Data(d) => SL.AccountDataKeeps(v, |d.data|);
      case WindowUpdate(_, _) =>
        SL.CreditKeeps(v, f);
        CreditedValid(v, f);
        DrainTracks(SL.Credited(v, f));
      case _ => SL.CloseWithErrorKeeps(v, REFUSED_STREAM);
    }
    hide AccountData, CloseWithError, ProcessPending, SL.Valid, SL.Keeps;
  }

  lemma DrainTracks(v: View)
    requires SL.Valid(v.s) && ProcessPending(v).Ok?
    ensures var v' := ProcessPending(v).value;
            Final(v.s, v'.s) && v'.s.err == v.s.err && v'.w.completions == v.w.completions
  {
    SL.ProcessPendingKeeps(v);
    DrainIntake(v);
    hide ProcessPending, SL.Valid, SL.Keeps;
  }

  lemma ReceiveTracks(v: View, f: Frame)
    requires SL.Valid(v.s) && ReceiveFrame(v, f).Ok?
    ensures Tracks(v, ReceiveFrame(v, f).value)
  {
    hide Dispatch, CloseWithError, SL.Valid, Tracks, Finalize;
    if Incoming(v.s.state, f).None? {
      CloseTracks(v, STREAM_CLOSED);
    } else {
      var v1 := v.(s := SetStates(v.s, Incoming(v.s.state, f).value));
      SL.IncomingValid(v.s, f);
      DispatchTracks(v1, f);
      FinalizeTracks(v, v1, Dispatch(v1, f).value, f);
    }
  }

  lemma FinalizeTracks(v: View, v1: View, v2: View, f: Frame)
    requires Incoming(v.s.state, f).Some? && v1 == v.(s := SetStates(v.s, Incoming(v.s.state, f).value))
    requires f.RstStream? ==> v2.s.state == v1.s.state
    requires !f.RstStream? && v2.s.state != Closed ==> v2.s.err == v1.s.err
    requires !f.Data? && !f.Headers? && !f.PushPromise? ==> Final(v1.s, v2.s)
    ensures Tracks(v, FinalizeIfNewlyClosed(v.s, v2))
  {
  }

  lemma ReceiveHonest(v: View, f: Frame)
    requires SL.Valid(v.s) && Honest(v.s, v.w.completions) && ReceiveFrame(v, f).Ok?
    ensures Honest(ReceiveFrame(v, f).value.s, ReceiveFrame(v, f).value.w.completions)
    ensures v.w.completions <= ReceiveFrame(v, f).value.w.completions
  {
    hide ReceiveFrame, Honest, Tracks;
    ReceiveTracks(v, f);
    SL.ReceiveFrameKeeps(v, f);
    KeptHonest(v, ReceiveFrame(v, f).value);
  }

  lemma KeptHonest(v: View, v': View)
    requires SL.Valid(v.s) && SL.Keeps(v, v') && Honest(v.s, v.w.completions) && Tracks(v, v')
    ensures Honest(v'.s, v'.w.completions) && v.w.completions <= v'.w.completions
  {
    CT.NeverBack(v.s, v'.s);
    hide SL.Valid, Honest, Tracks, SL.Settled, SL.Bytes;
    TracksHonestly(v, v');
  }

  lemma CloseHonest(v: View, code: ErrorCode)
    requires SL.Valid(v.s) && Honest(v.s, v.w.completions)
    ensures CloseWithError(v, code).Ok?
    ensures Honest(CloseWithError(v, code).value.s, CloseWithError(v, code).value.w.completions)
    ensures v.w.completions <= CloseWithError(v, code).value.w.completions
  {
    hide CloseWithError, Honest, Tracks;
    CloseTracks(v, code);
    SL.CloseWithErrorKeeps(v, code);
    KeptHonest(v, CloseWithError(v, code).value);
  }

  lemma SilencedHonest(v: View)
    requires SL.Valid(v.s) && Honest(v.s, v.w.completions) && ProcessPending(v).Ok?
    ensures var v2 := Silenced(v, ProcessPending(v).value);
            Honest(v2.s, v2.w.completions) && v2.w.completions == v.w.completions
  {
    hide ProcessPending, Honest;
    DrainTracks(v);
    SL.ProcessPendingKeeps(v);
    var v1 := ProcessPending(v).value;
    CT.NeverBack(v.s, v1.s);
    assert v1.s.command == v.s.command;
    hide SL.Valid, SL.Keeps;
    TracksHonestly(v, Silenced(v, v1));
  }

  lemma AssociateHonest(v: View, cmd: HttpCommand)
    requires Honest(v.s, v.w.completions)
    ensures var v' := Associate(v, cmd).0; Honest(v'.s, v'.w.completions) && v.w.completions <= v'.w.completions
  {
    var v' := Associate(v, cmd).0;
    if v.s.command.None? && v.s.state == Closed {
      var cs := v'.w.completions;
      assert cs[|cs| - 1].command == cmd.id && Tells(cs[|cs| - 1].result, v'.s);
    }
  }

  // ---------------------------------------------------------------- a request

  lemma SendDataErr(v: View, d: DataFrame, first: bool)
    requires SendData(v, d, first).Ok?
    ensures SendData(v, d, first).value.s.err == v.s.err && SameResponse(v.s, SendData(v, d, first).value.s)
    ensures SendData(v, d, first).value.s.requestHeaders == v.s.requestHeaders
  {
    hide Outgoing;
  }

  predicate SameResponse(s: Stream, s': Stream) {
    s'.responseHeaders == s.responseHeaders && s'.responseBody == s.responseBody
  }

  lemma SendFrameErr(v: View, f: Frame)
    requires SendFrame(v, f).Ok?
    ensures SendFrame(v, f).value.s.err == v.s.err && SameResponse(v.s, SendFrame(v, f).value.s)
    ensures SendFrame(v, f).value.s.requestHeaders ==
            if f.Headers? then v.s.requestHeaders + f.headers else v.s.requestHeaders
  {
    hide Outgoing, SendData, Finalize;
    if f.Data? {
      SendDataErr(v.(s := Submit(v.s, f.frame)), f.frame, v.s.pending == []);
    }
  }

  lemma {:induction false} SendAllErr(v: View, fs: seq<DataFrame>)
    requires SendAll(v, fs).Ok?
    ensures SendAll(v, fs).value.s.err == v.s.err && SameResponse(v.s, SendAll(v, fs).value.s)
    ensures SendAll(v, fs).value.s.requestHeaders == v.s.requestHeaders
    decreases fs
  {
    hide SendFrame;
    if fs != [] {
      SendFrameErr(v, Data(fs[0]));
      SendAllErr(SendFrame(v, Data(fs[0])).value, fs[1..]);
    }
  }

  lemma SendRequestErr(v: View, cmd: HttpCommand, frameSize: u32)
    requires SendRequest(v, cmd, frameSize).Ok?
    ensures SendRequest(v, cmd, frameSize).value.s.err == v.s.err
    ensures SendRequest(v, cmd, frameSize).value.s.requestHeaders == v.s.requestHeaders + cmd.headers
    ensures SameResponse(v.s, SendRequest(v, cmd, frameSize).value.s)
  {
    hide SendFrame, SendAll, Chunks;
    SendFrameErr(v, RequestHeaders(v.s.id, cmd));
    if cmd.body != [] {
      SendAllErr(SendFrame(v, RequestHeaders(v.s.id, cmd)).value, Chunks(v.s.id, cmd.body, frameSize, 0).value);
    }
  }

  /** The stream of a request, right after it: it waits for the whole response. */
  ghost predicate Fresh(s: Stream, cmd: HttpCommand) {
    s.state in {Open, HalfClosedLocal} && s.err.None? && s.command == Some(cmd)
        && s.requestHeaders == cmd.headers && s.hist.upload == cmd.body && s.hist.credit == 0 && !s.hist.silentClose
        && SameResponse(New(0, None, [], 0, 0), s)
  }

  lemma RequestIs(c: Connection, cmd: HttpCommand) returns (s: Stream)
    requires DoRequest(c, cmd).Ok?
    ensures var c' := DoRequest(c, cmd).value;
            c'.store == c.store + [s] && Fresh(s, cmd) && c'.writer.completions == c.writer.completions
  {
    var id := NextId(c.streams.Keys);
    var c1 := NewStream(c, cmd);
    var v := View(New(id, Some(cmd), cmd.body, c.initialSendWindow, c.initialReceiveWindow), c.writer);
    assert ViewOf(c1, |c.store|) == v;
    NewStreamValid(id, Some(cmd), cmd.body, c.initialSendWindow, c.initialReceiveWindow, c.writer);
    hide NextId, SendRequest, SL.Evolves, SL.Valid, SL.Settled, Cuttable, Uploaded;
    SendRequestKeeps(v, cmd, c.serverFrameSize);
    SendRequestErr(v, cmd, c.serverFrameSize);
    WT.SendRequestCarries(v, cmd, c.serverFrameSize);
    hide WT.Writes;
    var v' := SendRequest(v, cmd, c.serverFrameSize).value;
    EvolvesCommand(v, v');
    s := v'.s;
  }

  lemma EvolvesCommand(v: View, v': View)
    requires SL.Evolves(v, v')
    ensures v'.s.command == v.s.command && v'.s.hist.upload == v.s.hist.upload
    ensures v'.s.hist.silentClose == v.s.hist.silentClose
  {
  }

  // ---------------------------------------------------------------- the connection

  lemma PutHonest(c: Connection, h: nat, v: View)
    requires AllHonest(c) && h < |c.store| && Honest(v.s, v.w.completions) && c.writer.completions <= v.w.completions
    ensures AllHonest(Put(c, h, v))
  {
    LaterHonest(c, v.w.completions);
    hide Honest;
  }

  lemma LaterHonest(c: Connection, cs: seq<Completion>)
    requires AllHonest(c) && c.writer.completions <= cs
    ensures forall h :: 0 <= h < |c.store| ==> Honest(c.store[h], cs)
  {
    forall h | 0 <= h < |c.store| ensures Honest(c.store[h], cs) {
      var s := c.store[h];
      if s.command.Some? && Told(s, c.writer.completions) {
        var k :| 0 <= k < |c.writer.completions| && c.writer.completions[k].command == s.command.value.id
                 && Tells(c.writer.completions[k].result, s);
        assert cs[k] == c.writer.completions[k];
      }
    }
  }

  lemma AppendHonest(c: Connection, c': Connection, s: Stream)
    requires AllHonest(c) && c'.store == c.store + [s] && c'.writer.completions == c.writer.completions
    requires s.state != Closed && s.err.None?
    ensures AllHonest(c')
  {
    hide Told;
  }

  lemma SameHonest(c: Connection, c': Connection)
    requires AllHonest(c) && c'.store == c.store && c.writer.completions <= c'.writer.completions
    ensures AllHonest(c')
  {
    LaterHonest(c, c'.writer.completions);
    hide Honest;
  }

  lemma StoreHonest(c: Connection, id: StreamId)
    requires Sound(c) && AllHonest(c) && Known(c, id)
    ensures SL.Valid(c.store[c.streams[id]]) && Honest(c.store[c.streams[id]], c.writer.completions)
  {
    Lookup(c, id);
    hide Sound, Honest, SL.Valid;
  }

  lemma DeliversHonest(c: Connection, id: StreamId, f: Frame)
    requires Sound(c) && AllHonest(c) && Known(c, id) && ReceiveOn(c, c.streams[id], f).Ok?
    ensures AllHonest(ReceiveOn(c, c.streams[id], f).value)
  {
    hide Sound, AllHonest, Honest, SL.Valid, ReceiveFrame;
    StoreHonest(c, id);
    ReceiveHonest(ViewOf(c, c.streams[id]), f);
    PutHonest(c, c.streams[id], ReceiveFrame(ViewOf(c, c.streams[id]), f).value);
  }

  lemma RefusesHonest(c: Connection, id: StreamId)
    requires Sound(c) && AllHonest(c) && Known(c, id)
    ensures CloseWithError(ViewOf(c, c.streams[id]), REFUSED_STREAM).Ok?
    ensures AllHonest(Put(c, c.streams[id], CloseWithError(ViewOf(c, c.streams[id]), REFUSED_STREAM).value))
  {
    hide Sound, AllHonest, Honest, SL.Valid, CloseWithError;
    StoreHonest(c, id);
    CloseHonest(ViewOf(c, c.streams[id]), REFUSED_STREAM);
    PutHonest(c, c.streams[id], CloseWithError(ViewOf(c, c.streams[id]), REFUSED_STREAM).value);
  }

  lemma DrainsHonest(c: Connection, id: StreamId)
    requires Sound(c) && AllHonest(c) && Known(c, id) && DrainOne(c, id).Ok?
    ensures AllHonest(DrainOne(c, id).value)
  {
    hide Sound, AllHonest, Honest, SL.Valid, ProcessPending, Silenced;
    StoreHonest(c, id);
    var v := ViewOf(c, c.streams[id]);
    DrainNeedsProcess(c, id);
    SilencedHonest(v);
    DrainOneIs(c, id, ProcessPending(v).value);
    hide DrainOne;
    PutHonest(c, c.streams[id], Silenced(v, ProcessPending(v).value));
  }

  lemma TakesHonest(c: Connection, cmd: HttpCommand, id: StreamId)
    requires AllHonest(c) && id in c.cache && c.cache[id] < |c.store|
    ensures AllHonest(TakeFromCache(c, cmd, id))
  {
    hide Honest, Associate;
    var h := c.cache[id];
    var v := Associate(ViewOf(c, h), cmd).0;
    AssociateHonest(ViewOf(c, h), cmd);
    PutHonest(c, h, v);
    hide AllHonest;
    SameHonest(Put(c, h, v), TakeFromCache(c, cmd, id));
  }

  lemma ActHonest(c: Connection, a: Action)
    requires Sound(c) && AllHonest(c) && Act(c, a).Ok?
    ensures AllHonest(Act(c, a).value)
  {
    hide Sound, AllHonest, ReceiveOn, CloseWithError, DrainOne, DoRequest, TakeFromCache, New;
    match a {
      case Delivers(id, f) => if Known(c, id) { DeliversHonest(c, id, f); }
      case Refuses(id) => if Known(c, id) { RefusesHonest(c, id); }
      case Drains(id) => if Known(c, id) { DrainsHonest(c, id); } else { DrainsNothing(c, id); }
      case Creates(id) =>
        if id !in c.streams {
          NewIsIdle(id, c.initialSendWindow, c.initialReceiveWindow);
          AppendHonest(c, GetOrCreate(c, id), New(id, None, [], c.initialSendWindow, c.initialReceiveWindow));
        }
      case Requests(cmd) =>
        var s := RequestIs(c, cmd);
        AppendHonest(c, DoRequest(c, cmd).value, s);
      case Takes(cmd, id) => if id in c.cache && c.cache[id] < |c.store| { TakesHonest(c, cmd, id); }
      case _ => SameHonest(c, Act(c, a).value);
    }
  }

  lemma NewIsIdle(id: StreamId, sendWindow: u32, receiveWindow: u32)
    ensures var s := New(id, None, [], sendWindow, receiveWindow); s.state == Idle && s.err.None?
  {
  }

  lemma DrainsNothing(c: Connection, id: StreamId)
    requires !Known(c, id)
    ensures DrainOne(c, id) == Ok(c)
  {
  }

  // ---------------------------------------------------------------- runs

  lemma StepHonest(c: Connection, i: Input)
    requires Sound(c) && AllHonest(c) && WellFormed(c) && Step(c, i).Ok?
    ensures AllHonest(Step(c, i).value)
  {
    hide Step, Sound, AllHonest, Act, Belongs;
    forall c1, a | Sound(c1) && AllHonest(c1) && Belongs(i.event, a) && Act(c1, a).Ok?
      ensures AllHonest(Act(c1, a).value)
    {
      ActHonest(c1, a);
    }
    StepKeepsInvariant(c, i, c1 => AllHonest(c1));
  }

  lemma {:induction false} RunHonest(states: seq<Connection>, inputs: seq<Input>, k: nat)
    requires IsRun(states, inputs) && k < |states|
    ensures AllHonest(states[k])
  {
    hide IsRun, Step, Sound, Valid, Legal, WellFormed, AllHonest, NewConnection;
    if k == 0 {
      RunShape(states, inputs);
      InitiallyHonest();
    } else {
      RunHonest(states, inputs, k - 1);
      RunStep(states, inputs, k);
      StepHonest(states[k - 1], inputs[k - 1]);
    }
  }

  lemma InitiallyHonest()
    ensures AllHonest(NewConnection())
  {
  }

  /** The step that issued an id was a request: its stream is the newest, and waits for the whole response. */
  lemma IssuingIsRequesting(c: Connection, i: Input)
    requires Sound(c) && WellFormed(c) && Step(c, i).Ok? && |c.hist.issuedIds| < |Step(c, i).value.hist.issuedIds|
    ensures var c' := Step(c, i).value;
            && i.event.Http? && |c'.store| == |c.store| + 1 && Fresh(c'.store[|c.store|], i.event.command)
            && c'.hist.issuedIds != []
            && var id := c'.hist.issuedIds[|c'.hist.issuedIds| - 1];
               id != 0 && Serves(c', id, |c.store|)
  {
    hide Step, NextId, Sound;
    IT.StepOnStreams(c, i);
    var cmd := i.event.command;
    var c0 := CountCommand(c, cmd);
    CountCommandKeeps(c, cmd);
    SoundIsWellFormed(c0);
    var a := HttpAct(c0, cmd, i.order);
    HttpStep(c, i);
    hide Act, ByMethod;
    ActOnStreams(c0, a);
    assert a == Requests(cmd);
    RequestingServes(c0, cmd);
  }

  lemma HttpStep(c: Connection, i: Input)
    requires WellFormed(c) && i.event.Http?
    ensures WellFormed(CountCommand(c, i.event.command))
    ensures Step(c, i) == ByMethod(CountCommand(c, i.event.command), i.event.command, i.order)
  {
    hide ByMethod;
  }

  lemma RequestingServes(c: Connection, cmd: HttpCommand)
    requires Act(c, Requests(cmd)).Ok?
    ensures var c' := Act(c, Requests(cmd)).value;
            && |c'.store| == |c.store| + 1 && Fresh(c'.store[|c.store|], cmd)
            && c'.hist.issuedIds == c.hist.issuedIds + [NextId(c.streams.Keys)]
            && NextId(c.streams.Keys) != 0 && Serves(c', NextId(c.streams.Keys), |c.store|)
  {
    hide DoRequest, NextId;
    var s := RequestIs(c, cmd);
    RequestsIs(c, cmd);
    NextIdIsNotZero(c.streams.Keys);
  }

  lemma NextIdIsNotZero(ids: set<StreamId>)
    ensures NextId(ids) != 0
  {
    var odd := set id <- ids | id % 2 == 1;
    if ids != {} && odd != {} {
      var top: int := Max(odd);
      assert top % 2 == 1;
    }
  }

  lemma RequestAt(states: seq<Connection>, inputs: seq<Input>, j: nat)
    requires IsRun(states, inputs) && j + 1 < |states| && IT.Issues(states, j)
    ensures inputs[j].event.Http? && |states[j].store| < |states[j + 1].store| && states[j + 1].hist.issuedIds != []
    ensures var id := states[j + 1].hist.issuedIds[|states[j + 1].hist.issuedIds| - 1];
            id != 0 && Serves(states[j + 1], id, |states[j].store|)
    ensures var s := states[j + 1].store[|states[j].store|];
            && IntakeOf(s) == Intake(true, [], []) && s.command == Some(inputs[j].event.command)
            && s.hist.upload == inputs[j].event.command.body && s.hist.credit == 0 && s.err.None?
  {
    hide IsRun, Step, Sound, Valid, Legal, WellFormed, Serves, Fresh;
    RunStep(states, inputs, j + 1);
    IssuingIsRequesting(states[j], inputs[j]);
    FreshIntake(states[j + 1].store[|states[j].store|], inputs[j].event.command);
  }

  lemma FreshIntake(s: Stream, cmd: HttpCommand)
    requires Fresh(s, cmd)
    ensures IntakeOf(s) == Intake(true, [], []) && s.command == Some(cmd) && s.hist.upload == cmd.body
    ensures s.hist.credit == 0 && s.err.None?
  {
  }
}
