/** What a request puts on the wire, from its HEADERS frame to the last byte of its body. */
module UploadTheorems {
  import opened Wrappers
  import opened Frames
  import opened StreamState
  import opened StreamSpec
  import opened ConnectionSpec
  import opened RequestLemmas
  import opened Runs
  import opened Actions
  import opened Ledger
  import opened InputTheorems
  import opened WireTheorems
  import HL = HonestLemmas
  import IT = IdTheorems
  import RT = ReceiveTheorems
  import SL = StreamLemmas
  import ST = SendTheorems

  /** DATA frames as the log has them. */
  function AsFrames(ds: seq<DataFrame>): seq<Frame> {
    seq(|ds|, k requires 0 <= k < |ds| => Data(ds[k]))
  }

  // ---------------------------------------------------------------- the step of the request

  /** The log gains what the stream has written meanwhile, and nothing else. */
  ghost predicate LogsData(v: View, v': View) {
    && v.s.hist.written <= v'.s.hist.written
    && v'.w.log == v.w.log + AsFrames(v'.s.hist.written[|v.s.hist.written|..])
  }

  lemma LogsTransitive(a: View, b: View, c: View)
    requires LogsData(a, b) && LogsData(b, c)
    ensures LogsData(a, c)
  {
    var (p, q, r) := (a.s.hist.written, b.s.hist.written, c.s.hist.written);
    assert r[|p|..] == q[|p|..] + r[|q|..];
  }

  lemma SendDataLogs(v: View, d: DataFrame, first: bool)
    requires SendData(v, d, first).Ok?
    ensures LogsData(v, SendData(v, d, first).value)
  {
    hide Outgoing;
  }

  lemma SendFrameLogs(v: View, d: DataFrame)
    requires SendFrame(v, Data(d)).Ok?
    ensures LogsData(v, SendFrame(v, Data(d)).value)
  {
    SendDataLogs(v.(s := Submit(v.s, d)), d, v.s.pending == []);
    hide SendData, Finalize;
  }

  lemma {:induction false} SendAllLogs(v: View, fs: seq<DataFrame>)
    requires SendAll(v, fs).Ok?
    ensures LogsData(v, SendAll(v, fs).value)
    decreases fs
  {
    hide SendFrame;
    if fs != [] {
      var v1 := SendFrame(v, Data(fs[0])).value;
      SendFrameLogs(v, fs[0]);
      SendAllLogs(v1, fs[1..]);
      LogsTransitive(v, v1, SendAll(v1, fs[1..]).value);
    }
  }

  /** HEADERS first, with its flags and fields as they are here, and then only DATA. */
  ghost predicate Asks(log: seq<Frame>, log': seq<Frame>, id: StreamId, cmd: HttpCommand, ds: seq<DataFrame>) {
    log' == log + [Headers(id, cmd.body == [], true, false, cmd.headers)] + AsFrames(ds)
  }

  lemma SendRequestLogs(v: View, cmd: HttpCommand, frameSize: u32)
    requires ReadyToSend(v) && v.s.state == Idle && v.s.hist.submitted == [] && v.s.hist.written == []
    requires SendRequest(v, cmd, frameSize).Ok?
    ensures var v' := SendRequest(v, cmd, frameSize).value; Asks(v.w.log, v'.w.log, v.s.id, cmd, v'.s.hist.written)
  {
    hide SendFrame, SendAll, Chunks, SL.Valid;
    var headers := RequestHeaders(v.s.id, cmd);
    assert headers == Headers(v.s.id, cmd.body == [], true, false, cmd.headers);
    SL.SendControlFrameKeeps(v, headers);
    var v1 := SendFrame(v, headers).value;
    NothingWritten(v1.s);
    if cmd.body == [] {
      assert v.w.log + [headers] == v.w.log + [headers] + AsFrames([]);
    } else {
      var fs := Chunks(v.s.id, cmd.body, frameSize, 0).value;
      SendAllLogs(v1, fs);
      var v2 := SendAll(v1, fs).value;
      assert v2.s.hist.written[0..] == v2.s.hist.written;
    }
  }

  lemma NothingWritten(s: Stream)
    requires SL.Valid(s) && s.hist.submitted == []
    ensures s.hist.written == []
  {
  }

  lemma RequestAsks(c: Connection, cmd: HttpCommand)
    requires DoRequest(c, cmd).Ok?
    ensures var c' := DoRequest(c, cmd).value;
            && |c'.store| == |c.store| + 1
            && var s := c'.store[|c.store|];
               && Asks(c.writer.log, c'.writer.log, NextId(c.streams.Keys), cmd, s.hist.written)
               && SL.AllFor(NextId(c.streams.Keys), s.hist.written)
               && Sized(s.hist.submitted, c.serverFrameSize)
  {
    hide DoRequest, NextId, SendRequest, SL.Valid, SL.Settled, Cuttable, Uploaded, Asks, Sized;
    var id := NextId(c.streams.Keys);
    var v, v' := RequestUnfolds(c, cmd);
    SendRequestKeeps(v, cmd, c.serverFrameSize);
    SendRequestLogs(v, cmd, c.serverFrameSize);
    assert v'.s.id == id by { EvolvesId(v, v'); }
    hide SL.Evolves;
    WrittenIsFor(v'.s);
  }

  /**
   The step that issues an id adds to the log exactly one HEADERS frame, with that id, END_STREAM if and only if
   there is no body, END_HEADERS, no priority and the headers of the command, and then DATA frames of that id only.
   */
  lemma RequestOnTheWire(c: Connection, i: Input)
    requires Sound(c) && WellFormed(c) && Step(c, i).Ok? && |c.hist.issuedIds| < |Step(c, i).value.hist.issuedIds|
    ensures var c' := Step(c, i).value;
            && i.event.Http? && |c'.store| == |c.store| + 1 && c'.store[..|c.store|] == c.store
            && |c'.hist.issuedIds| == |c.hist.issuedIds| + 1
            && var id, ds := c'.hist.issuedIds[|c.hist.issuedIds|], c'.store[|c.store|].hist.written;
               && c'.streams == c.streams[id := |c.store|] && c'.store[|c.store|].id == id
               && SL.AllFor(id, ds) && Sized(c'.store[|c.store|].hist.submitted, c.serverFrameSize)
               && c'.writer.log ==
                  c.writer.log + [Headers(id, i.event.command.body == [], true, false, i.event.command.headers)]
                  + AsFrames(ds)
  {
    hide Step, NextId, Sound;
    IT.StepOnStreams(c, i);
    var cmd := i.event.command;
    var c0 := CountCommand(c, cmd);
    CountCommandKeeps(c, cmd);
    SoundIsWellFormed(c0);
    var a := HttpAct(c0, cmd, i.order);
    HL.HttpStep(c, i);
    hide Act, ByMethod;
    ActOnStreams(c0, a);
    assert a == Requests(cmd);
    RequestingAsks(c0, cmd);
  }

  lemma RequestingAsks(c: Connection, cmd: HttpCommand)
    requires Sound(c) && Act(c, Requests(cmd)).Ok?
    ensures var c' := Act(c, Requests(cmd)).value;
            && |c'.store| == |c.store| + 1 && c'.store[..|c.store|] == c.store
            && c'.streams == c.streams[NextId(c.streams.Keys) := |c.store|]
            && c'.hist.issuedIds == c.hist.issuedIds + [NextId(c.streams.Keys)]
            && var s := c'.store[|c.store|];
               && Asks(c.writer.log, c'.writer.log, NextId(c.streams.Keys), cmd, s.hist.written)
               && SL.AllFor(NextId(c.streams.Keys), s.hist.written)
               && s.id == NextId(c.streams.Keys) && Sized(s.hist.submitted, c.serverFrameSize)
  {
    hide DoRequest, NextId, Asks, Sound, SL.AllFor, Sized;
    RequestAsks(c, cmd);
    RequestsIs(c, cmd);
    var s := HL.RequestIs(c, cmd);
    ActOnStreams(c, Requests(cmd));
    ActKeeps(c, Requests(cmd));
    Lookup(DoRequest(c, cmd).value, NextId(c.streams.Keys));
  }

  // ---------------------------------------------------------------- objects that lost their id

  /** The map leads from the object's id to another object. */
  predicate Retired(c: Connection, g: nat) {
    g < |c.store| && c.store[g].id in c.streams && c.streams[c.store[g].id] != g
  }

  /** An object that has lost its id writes nothing any more. */
  ghost predicate RetiredRest(c: Connection, c': Connection) {
    && |c.store| <= |c'.store|
    && forall g :: 0 <= g < |c.store| && Retired(c, g) ==>
         Retired(c', g) && c'.store[g].id == c.store[g].id && c'.store[g].hist.written == c.store[g].hist.written
  }

  lemma RetiredPut(c: Connection, h: nat, v: View)
    requires h < |c.store| && v.s.id == c.store[h].id
    requires Retired(c, h) ==> v.s.hist.written == c.store[h].hist.written
    ensures RetiredRest(c, Put(c, h, v))
  {
  }

  lemma RetiredMapped(c: Connection, id: StreamId, v: View)
    requires Sound(c) && Known(c, id) && v.s.id == c.store[c.streams[id]].id
    ensures RetiredRest(c, Put(c, c.streams[id], v))
  {
    Lookup(c, id);
    hide Sound;
    RetiredPut(c, c.streams[id], v);
  }

  lemma RetiredSame(c: Connection, c': Connection)
    requires c'.store == c.store && c'.streams == c.streams
    ensures RetiredRest(c, c')
  {
  }

  /** A new object, whose id leads to it. */
  lemma RetiredAdd(c: Connection, c': Connection, s: Stream)
    requires c'.store == c.store + [s] && c'.streams == c.streams[s.id := |c.store|]
    ensures RetiredRest(c, c')
  {
  }

  lemma RetiredThen(a: Connection, b: Connection, c: Connection)
    requires RetiredRest(a, b) && RetiredRest(b, c)
    ensures RetiredRest(a, c)
  {
  }

  lemma DeliversRest(c: Connection, id: StreamId, f: Frame)
    requires Sound(c) && Known(c, id) && ReceiveOn(c, c.streams[id], f).Ok?
    ensures RetiredRest(c, ReceiveOn(c, c.streams[id], f).value)
  {
    hide Sound, ReceiveFrame;
    var v := ViewOf(c, c.streams[id]);
    ReceiveCarries(v, f);
    WritesKeepsId(v, ReceiveFrame(v, f).value);
    RetiredMapped(c, id, ReceiveFrame(v, f).value);
  }

  lemma RefusesRest(c: Connection, id: StreamId)
    requires Sound(c) && Known(c, id) && CloseWithError(ViewOf(c, c.streams[id]), REFUSED_STREAM).Ok?
    ensures RetiredRest(c, Put(c, c.streams[id], CloseWithError(ViewOf(c, c.streams[id]), REFUSED_STREAM).value))
  {
    hide Sound, CloseWithError;
    var v := ViewOf(c, c.streams[id]);
    CloseCarries(v, REFUSED_STREAM);
    WritesKeepsId(v, CloseWithError(v, REFUSED_STREAM).value);
    RetiredMapped(c, id, CloseWithError(v, REFUSED_STREAM).value);
  }

  lemma DrainsRest(c: Connection, id: StreamId)
    requires Sound(c) && DrainOne(c, id).Ok?
    ensures RetiredRest(c, DrainOne(c, id).value)
  {
    hide Sound, ProcessPending;
    if Known(c, id) {
      DrainNeedsProcess(c, id);
      var v := ViewOf(c, c.streams[id]);
      var v1 := ProcessPending(v).value;
      DrainCarries(v);
      WritesKeepsId(v, v1);
      DrainOneIs(c, id, v1);
      hide DrainOne;
      RetiredMapped(c, id, Silenced(v, v1));
    } else {
      RetiredSame(c, c);
    }
  }

  lemma TakesRest(c: Connection, cmd: HttpCommand, id: StreamId)
    requires id in c.cache && c.cache[id] < |c.store|
    ensures RetiredRest(c, TakeFromCache(c, cmd, id))
  {
    var h := c.cache[id];
    AssociateWritesNothing(ViewOf(c, h), cmd);
    var v := Associate(ViewOf(c, h), cmd).0;
    hide Associate;
    RetiredPut(c, h, v);
    RetiredSame(Put(c, h, v), TakeFromCache(c, cmd, id));
    RetiredThen(c, Put(c, h, v), TakeFromCache(c, cmd, id));
    hide RetiredRest;
  }

  lemma RequestsRest(c: Connection, cmd: HttpCommand)
    requires Sound(c) && DoRequest(c, cmd).Ok?
    ensures RetiredRest(c, DoRequest(c, cmd).value)
  {
    hide DoRequest, NextId, Sound, Asks;
    RequestingAsks(c, cmd);
    var s := HL.RequestIs(c, cmd);
    assert DoRequest(c, cmd) == Act(c, Requests(cmd));
    RetiredAdd(c, DoRequest(c, cmd).value, s);
  }

  lemma ActRests(c: Connection, a: Action)
    requires Sound(c) && Act(c, a).Ok?
    ensures RetiredRest(c, Act(c, a).value)
  {
    hide RetiredRest, Sound, ReceiveOn, CloseWithError, DrainOne, DoRequest, TakeFromCache, HandleSettings,
         AccountConnectionData, ExecutePing, HandlePing, New;
    RetiredSame(c, c);
    match a {
      case Delivers(id, f) => if Known(c, id) { DeliversRest(c, id, f); }
      case Refuses(id) => if Known(c, id) { RefusesRest(c, id); }
      case Drains(id) => DrainsRest(c, id);
      case Creates(id) =>
        if id !in c.streams {
          var s := New(id, None, [], c.initialSendWindow, c.initialReceiveWindow);
          NewHasId(id, c);
          RetiredAdd(c, AddStream(c, s), s);
        }
      case Requests(cmd) => RequestsRest(c, cmd);
      case Takes(cmd, id) => if id in c.cache && c.cache[id] < |c.store| { TakesRest(c, cmd, id); }
      case _ => PlainRest(c, a);
    }
  }

  lemma NewHasId(id: StreamId, c: Connection)
    ensures New(id, None, [], c.initialSendWindow, c.initialReceiveWindow).id == id
  {
  }

  lemma PlainRest(c: Connection, a: Action)
    requires Plain(a)
    ensures Act(c, a).Ok? && RetiredRest(c, Act(c, a).value)
  {
    PlainKeepsStore(c, a);
    hide RetiredRest, Act, Plain;
    RetiredSame(c, Act(c, a).value);
  }
  lemma StepRests(c: Connection, i: Input)
    requires Sound(c) && WellFormed(c) && Step(c, i).Ok?
    ensures RetiredRest(c, Step(c, i).value)
  {
    hide Step, Sound, RetiredRest, Act, Belongs;
    forall c1, a | Sound(c1) && RetiredRest(c, c1) && Belongs(i.event, a) && Act(c1, a).Ok?
      ensures RetiredRest(c, Act(c1, a).value)
    {
      ActRests(c1, a);
      RetiredThen(c, c1, Act(c1, a).value);
    }
    RetiredSame(c, c);
    StepKeepsInvariant(c, i, c1 => RetiredRest(c, c1));
  }

  lemma {:induction false} RunRests(states: seq<Connection>, inputs: seq<Input>, j: nat, k: nat)
    requires IsRun(states, inputs) && j <= k < |states|
    ensures RetiredRest(states[j], states[k])
    decreases k
  {
    hide IsRun, Step, Sound, Valid, Legal, WellFormed, RetiredRest;
    if j == k {
      RetiredSame(states[j], states[j]);
    } else {
      RunRests(states, inputs, j, k - 1);
      RunStep(states, inputs, k);
      StepRests(states[k - 1], inputs[k - 1]);
      RetiredThen(states[j], states[k - 1], states[k]);
    }
  }

  // ---------------------------------------------------------------- runs

  /** An id that is not reissued leads to the same object. */
  lemma {:induction false} EntryStays(states: seq<Connection>, inputs: seq<Input>, j: nat, k: nat, id: StreamId)
    requires IsRun(states, inputs) && j <= k < |states| && id in states[j].streams
    requires !RT.Reissued(states[j], states[k], id)
    ensures id in states[k].streams && states[k].streams[id] == states[j].streams[id]
    decreases k
  {
    hide IsRun, Step, Sound, Valid, Legal, WellFormed, RT.Reissued, Grows, NextId;
    if j < k {
      RunStep(states, inputs, k);
      RunGrows(states, inputs, j, k - 1);
      RunGrows(states, inputs, k - 1, k);
      RT.NotReissued(states[j], states[k - 1], states[k], id);
      EntryStays(states, inputs, j, k - 1, id);
      IT.StepOnStreams(states[k - 1], inputs[k - 1]);
      if IT.AddsRequest(states[k - 1], states[k]) {
        ReissuedByRequest(states[k - 1], states[k], id);
      }
    }
  }

  lemma ReissuedByRequest(c: Connection, c': Connection, id: StreamId)
    requires IT.AddsRequest(c, c') && !RT.Reissued(c, c', id)
    ensures NextId(c.streams.Keys) != id
  {
    hide NextId;
    assert c'.hist.issuedIds[|c.hist.issuedIds|..] == [NextId(c.streams.Keys)];
  }

  lemma {:induction false} WrittenForAlike(store: seq<Stream>, store': seq<Stream>, id: StreamId)
    requires |store| == |store'|
    requires forall g :: 0 <= g < |store| ==> store'[g].id == store[g].id
    requires forall g :: 0 <= g < |store| && store[g].id == id ==> store'[g].hist.written == store[g].hist.written
    ensures WrittenFor(store', id) == WrittenFor(store, id)
    decreases store
  {
    if store != [] {
      var k := |store| - 1;
      WrittenForAlike(store[..k], store'[..k], id);
    }
  }

  lemma SuffixOf(log: seq<Frame>, log': seq<Frame>, id: StreamId)
    requires log <= log'
    ensures DataOf(log', id) == DataOf(log, id) + DataOf(log'[|log|..], id)
  {
    assert log' == log + log'[|log|..];
    DatasConcat(log, log'[|log|..]);
    ForConcat(Datas(log), Datas(log'[|log|..]), id);
    hide Datas, For;
  }

  /** What was written on an id before the object `h` came into being is all that older objects have ever written. */
  lemma OlderIsWhatWas(c: Connection, c1: Connection, c': Connection, h: nat, id: StreamId)
    requires h == |c.store| && h < |c1.store| && c1.store[..h] == c.store
    requires id in c1.streams && c1.streams[id] == h && RetiredRest(c1, c') && Grows(c1, c')
    ensures h < |c'.store| && WrittenFor(c'.store[..h], id) == WrittenFor(c.store, id)
  {
    hide WrittenFor;
    forall g | 0 <= g < h
      ensures c'.store[g].id == c.store[g].id
      ensures c.store[g].id == id ==> c'.store[g].hist.written == c.store[g].hist.written
    {
      assert c1.store[g] == c1.store[..h][g];
      assert StreamGrows(c1.store[g], c'.store[g]);
      assert c.store[g].id == id ==> Retired(c1, g);
    }
    WrittenForAlike(c.store, c'.store[..h], id);
  }

  /** A stream's own frames are those that the log has gained for its id since the stream came into being. */
  lemma SinceIsWritten(states: seq<Connection>, inputs: seq<Input>, j: nat, k: nat, id: StreamId)
    requires IsRun(states, inputs) && j < k < |states| && IT.Issues(states, j)
    requires states[j + 1].hist.issuedIds != []
    requires id == states[j + 1].hist.issuedIds[|states[j + 1].hist.issuedIds| - 1]
    requires !RT.Reissued(states[j + 1], states[k], id)
    ensures states[j].writer.log <= states[k].writer.log
    ensures id in states[k].streams && states[k].streams[id] == |states[j].store| < |states[k].store|
    ensures states[k].store[|states[j].store|].id == id
    ensures DataOf(states[k].writer.log[|states[j].writer.log|..], id) ==
            states[k].store[|states[j].store|].hist.written
  {
    hide IsRun, Step, Sound, Valid, Legal, WellFormed, RT.Reissued, RetiredRest, DataOf, WrittenFor, Datas,
         TotalWritten, SL.Bytes;
    var (c, c1, c') := (states[j], states[j + 1], states[k]);
    var h := |c.store|;
    RunStep(states, inputs, j + 1);
    RequestOnTheWire(c, inputs[j]);
    RunGrows(states, inputs, j, k);
    RunGrows(states, inputs, j + 1, k);
    assert StreamGrows(c1.store[h], c'.store[h]);
    EntryStays(states, inputs, j + 1, k, id);
    RunRests(states, inputs, j + 1, k);
    OlderIsWhatWas(c, c1, c', h, id);
    hide Grows, AsFrames;
    LogCarriesData(states, inputs, j);
    LogCarriesData(states, inputs, k);
    NewestIsLast(c', h, id);
    SuffixOf(c.writer.log, c'.writer.log, id);
    Cancel(WrittenFor(c.store, id), DataOf(c'.writer.log[|c.writer.log|..], id), c'.store[h].hist.written);
  }

  lemma Cancel(a: seq<DataFrame>, b: seq<DataFrame>, b': seq<DataFrame>)
    requires a + b == a + b'
    ensures b == b'
  {
    assert b == (a + b)[|a|..] && b' == (a + b')[|a|..];
  }

  lemma NewestIsLast(c: Connection, h: nat, id: StreamId)
    requires Newest(c) && h < |c.store| && c.store[h].id == id && id in c.streams && c.streams[id] == h
    ensures WrittenFor(c.store, id) == WrittenFor(c.store[..h], id) + c.store[h].hist.written
  {
    WrittenForSplit(c.store, h);
    WrittenForNone(c.store[h + 1..], id);
    hide WrittenFor;
  }

  // ---------------------------------------------------------------- credit

  ghost predicate SameCredit(c: Connection, c': Connection) {
    && |c.store| <= |c'.store|
    && forall h :: 0 <= h < |c.store| ==> c'.store[h].hist.credit == c.store[h].hist.credit
  }

  lemma SameCreditThen(a: Connection, b: Connection, c: Connection)
    requires SameCredit(a, b) && SameCredit(b, c)
    ensures SameCredit(a, c)
  {
  }

  lemma PutCredit(c: Connection, h: nat, v: View)
    requires h < |c.store| && v.s.hist.credit == c.store[h].hist.credit
    ensures SameCredit(c, Put(c, h, v))
  {
  }

  predicate BringsCredit(e: Event) {
    e.Received? && e.frame.WindowUpdate? && e.frame.streamId != 0
  }

  lemma DeliversCredit(c: Connection, id: StreamId, f: Frame)
    requires Known(c, id) && ReceiveOn(c, c.streams[id], f).Ok?
    ensures var (c', h) := (ReceiveOn(c, c.streams[id], f).value, c.streams[id]);
            && |c'.store| == |c.store|
            && c'.store[h].hist.credit == c.store[h].hist.credit + (if f.WindowUpdate? then f.increment else 0)
            && (forall g :: 0 <= g < |c.store| && g != h ==> c'.store[g] == c.store[g])
            && (!f.WindowUpdate? ==> SameCredit(c, c'))
  {
    hide ReceiveFrame, Writes;
    ReceiveCarries(ViewOf(c, c.streams[id]), f);
  }

  lemma RefusesCredit(c: Connection, id: StreamId)
    requires Known(c, id) && CloseWithError(ViewOf(c, c.streams[id]), REFUSED_STREAM).Ok?
    ensures SameCredit(c, Put(c, c.streams[id], CloseWithError(ViewOf(c, c.streams[id]), REFUSED_STREAM).value))
  {
    hide CloseWithError, Writes;
    CloseCarries(ViewOf(c, c.streams[id]), REFUSED_STREAM);
  }

  lemma DrainsCredit(c: Connection, id: StreamId)
    requires DrainOne(c, id).Ok?
    ensures SameCredit(c, DrainOne(c, id).value)
  {
    hide ProcessPending, Writes;
    if Known(c, id) {
      DrainNeedsProcess(c, id);
      var v := ViewOf(c, c.streams[id]);
      DrainCarries(v);
      DrainOneIs(c, id, ProcessPending(v).value);
      hide DrainOne;
      PutCredit(c, c.streams[id], Silenced(v, ProcessPending(v).value));
    }
  }

  lemma TakesCredit(c: Connection, cmd: HttpCommand, id: StreamId)
    requires id in c.cache && c.cache[id] < |c.store|
    ensures SameCredit(c, TakeFromCache(c, cmd, id))
  {
    hide Finalize;
  }

  lemma ActCredit(c: Connection, a: Action)
    requires Act(c, a).Ok? && (a.Delivers? ==> !a.frame.WindowUpdate?)
    ensures SameCredit(c, Act(c, a).value)
  {
    hide SameCredit, ReceiveOn, CloseWithError, DrainOne, DoRequest, TakeFromCache, HandleSettings,
         AccountConnectionData, ExecutePing, HandlePing, GetOrCreate;
    StoreGrown(c, c);
    match a {
      case Delivers(id, f) => if Known(c, id) { DeliversCredit(c, id, f); }
      case Refuses(id) => if Known(c, id) { RefusesCredit(c, id); }
      case Drains(id) => DrainsCredit(c, id);
      case Creates(id) => CreatesCredit(c, id);
      case Requests(cmd) =>
        var s := HL.RequestIs(c, cmd);
        StoreGrown(c, DoRequest(c, cmd).value);
      case Takes(cmd, id) => if id in c.cache && c.cache[id] < |c.store| { TakesCredit(c, cmd, id); }
      case _ => PlainCredit(c, a);
    }
  }

  lemma StoreGrown(c: Connection, c': Connection)
    requires c.store <= c'.store
    ensures SameCredit(c, c')
  {
  }

  lemma CreatesCredit(c: Connection, id: StreamId)
    ensures SameCredit(c, GetOrCreate(c, id))
  {
  }

  lemma PlainCredit(c: Connection, a: Action)
    requires Plain(a)
    ensures Act(c, a).Ok? && SameCredit(c, Act(c, a).value)
  {
    PlainKeepsStore(c, a);
    hide SameCredit, Act, Plain;
    StoreGrown(c, Act(c, a).value);
  }
  lemma StepCredit(c: Connection, i: Input)
    requires Sound(c) && WellFormed(c) && Step(c, i).Ok? && !BringsCredit(i.event)
    ensures SameCredit(c, Step(c, i).value)
  {
    hide Step, Sound, SameCredit, Act;
    StoreGrown(c, c);
    forall c1, a | Sound(c1) && SameCredit(c, c1) && Belongs(i.event, a) && Act(c1, a).Ok?
      ensures SameCredit(c, Act(c1, a).value)
    {
      ActCredit(c1, a);
      SameCreditThen(c, c1, Act(c1, a).value);
    }
    StepKeepsInvariant(c, i, c1 => SameCredit(c, c1));
  }

  /** The increment that an event brings to stream `id`. */
  function CreditFor(e: Event, id: StreamId): nat {
    if e.Received? && e.frame.WindowUpdate? && e.frame.streamId == id then e.frame.increment else 0
  }

  lemma StepBringsCredit(c: Connection, i: Input, id: StreamId)
    requires Sound(c) && WellFormed(c) && Step(c, i).Ok? && Known(c, id) && id != 0
    ensures var (c', h) := (Step(c, i).value, c.streams[id]);
            h < |c'.store| && c'.store[h].hist.credit == c.store[h].hist.credit + CreditFor(i.event, id)
  {
    if BringsCredit(i.event) {
      var f := i.event.frame;
      var c1 := BeforeReceive(c, f);
      Routing(c, f);
      CreatesCredit(c, f.streamId);
      CreatesKeepsEntry(c, f.streamId, id);
      BeforeReceiveAdvances(c, f);
      AdvancesIsSound(c, c1);
      hide BeforeReceive, GetOrCreate, Advances, Sound, HandleForStream, ReceiveOn, StreamSound;
      assert Step(c, i) == ReceiveOn(c1, c1.streams[f.streamId], f);
      DeliversCredit(c1, f.streamId, f);
      Lookup(c1, id);
      Lookup(c1, f.streamId);
    } else {
      hide Step, Sound;
      StepCredit(c, i);
    }
  }

  lemma CreatesKeepsEntry(c: Connection, other: StreamId, id: StreamId)
    requires Known(c, id)
    ensures Known(GetOrCreate(c, other), id) && GetOrCreate(c, other).streams[id] == c.streams[id]
  {
  }

  /** The increments in WINDOW_UPDATE frames for stream `id`. */
  function CreditsFor(inputs: seq<Input>, id: StreamId): nat {
    if inputs == [] then 0
    else CreditsFor(inputs[..|inputs| - 1], id) + CreditFor(inputs[|inputs| - 1].event, id)
  }

  /** The credit of a stream is what has come in for its id. */
  lemma {:induction false} CreditIsWhatCame(states: seq<Connection>, inputs: seq<Input>, j: nat, k: nat, id: StreamId)
    requires IsRun(states, inputs) && j <= k < |states| && id != 0 && Known(states[j], id)
    requires !RT.Reissued(states[j], states[k], id)
    ensures |states| == |inputs| + 1
    ensures var h := states[j].streams[id];
            && Known(states[k], id) && states[k].streams[id] == h
            && states[k].store[h].hist.credit == states[j].store[h].hist.credit + CreditsFor(inputs[j..k], id)
    decreases k
  {
    hide IsRun, Step, Sound, Valid, Legal, WellFormed, RT.Reissued, Grows;
    RunShape(states, inputs);
    EntryStays(states, inputs, j, k, id);
    RunGrows(states, inputs, j, k);
    assert Known(states[k], id) by { GrowsKnown(states[j], states[k], id); }
    if j == k {
      assert inputs[j..j] == [];
    } else {
      RunGrows(states, inputs, j, k - 1);
      RunGrows(states, inputs, k - 1, k);
      RT.NotReissued(states[j], states[k - 1], states[k], id);
      CreditIsWhatCame(states, inputs, j, k - 1, id);
      RunStep(states, inputs, k);
      StepBringsCredit(states[k - 1], inputs[k - 1], id);
      assert inputs[j..k][..k - 1 - j] == inputs[j..k - 1];
    }
  }

  lemma GrowsKnown(c: Connection, c': Connection, id: StreamId)
    requires Known(c, id) && Grows(c, c') && id in c'.streams && c'.streams[id] == c.streams[id]
    ensures Known(c', id)
  {
  }

  // ---------------------------------------------------------------- a request end to end

  /** The latest id was issued by the event after state `j`, and to no later request up to state `k`. */
  predicate Requested(states: seq<Connection>, j: nat, k: nat, id: StreamId)
    requires j < k < |states|
  {
    && |states[j].hist.issuedIds| < |states[j + 1].hist.issuedIds|
    && id == states[j + 1].hist.issuedIds[|states[j + 1].hist.issuedIds| - 1]
    && !RT.Reissued(states[j + 1], states[k], id)
  }

  /** The DATA frames for `id` that the log has gained since state `j`. */
  function SentSince(states: seq<Connection>, j: nat, k: nat, id: StreamId): seq<DataFrame>
    requires j <= k < |states| && |states[j].writer.log| <= |states[k].writer.log|
  {
    DataOf(states[k].writer.log[|states[j].writer.log|..], id)
  }

  /** Everything is submitted at once, and nothing later. */
  lemma SubmittedOnce(s: Stream, s': Stream)
    requires StreamSound(s) && StreamSound(s') && StreamGrows(s, s')
    ensures s'.hist.submitted == s.hist.submitted
  {
    hide SL.Valid, Covered, SL.Payload;
    var (p, q) := (s.hist.submitted, s'.hist.submitted);
    if Covered(s.hist.upload) != [] {
      assert q[|p| - 1] == p[|p| - 1];
      assert |q| == |p|;
    }
  }

  /** What a request has come to: its stream, as later states find it. */
  lemma RequestedStream(states: seq<Connection>, inputs: seq<Input>, j: nat, k: nat, id: StreamId)
    requires IsRun(states, inputs) && j < k < |states| && Requested(states, j, k, id)
    ensures |states| == |inputs| + 1 && inputs[j].event.Http? && states[j].writer.log <= states[k].writer.log
    ensures id in states[k].streams && states[k].streams[id] == |states[j].store| < |states[k].store|
    ensures var (cmd, s) := (inputs[j].event.command, states[k].store[|states[j].store|]);
            && SentSince(states, j, k, id) == s.hist.written == SentBy(states[k], |states[j].store|)
            && s.hist.upload == cmd.body && Sized(s.hist.submitted, states[j].serverFrameSize)
            && id != 0
            && s.hist.credit == CreditsFor(inputs[j + 1..k], id)
    ensures var (cmd, start) := (inputs[j].event.command, |states[j].writer.log|);
            && start < |states[k].writer.log|
            && states[k].writer.log[start] == Headers(id, cmd.body == [], true, false, cmd.headers)
  {
    hide Step, Sound, Valid, Legal, WellFormed, RT.Reissued, IsRun, DataOf, AsFrames, SentBy, Sized, RT.IntakeOf,
         StreamSound, Sole;
    var h := |states[j].store|;
    RunStep(states, inputs, j + 1);
    RequestOnTheWire(states[j], inputs[j]);
    RunGrows(states, inputs, j + 1, k);
    HL.RequestAt(states, inputs, j);
    SinceIsWritten(states, inputs, j, k, id);
    SentIsWritten(states, inputs, k, h);
    CreditIsWhatCame(states, inputs, j + 1, k, id);
    IssuedInStep(states, inputs, j);
    UploadIsKept(states[j + 1], states[k], h);
    RunSound(states, inputs, j + 1, h);
    RunSound(states, inputs, k, h);
    SubmittedOnce(states[j + 1].store[h], states[k].store[h]);
    hide Grows;
  }

  lemma RunSound(states: seq<Connection>, inputs: seq<Input>, k: nat, h: nat)
    requires IsRun(states, inputs) && k < |states| && h < |states[k].store|
    ensures StreamSound(states[k].store[h])
  {
    RunStream(states, inputs, k, h);
    hide IsRun, SL.Valid, Uploaded;
  }

  /**
   A request end to end. Whatever happens after it, the log has gained, right where the request was made, one
   HEADERS frame with the id, the flags and the headers as they are here; since then the DATA frames of that id,
   followed by those that still wait, carry the body (the part of it that its uint32 length covers), END_STREAM on
   the last frame and on no other, in frames of the size that the server had announced.
   */
  lemma RequestIsUploaded(states: seq<Connection>, inputs: seq<Input>, j: nat, k: nat, id: StreamId)
    requires IsRun(states, inputs) && j < k < |states| && Requested(states, j, k, id)
    ensures |states| == |inputs| + 1 && inputs[j].event.Http? && states[j].writer.log <= states[k].writer.log
    ensures id in states[k].streams && states[k].streams[id] < |states[k].store|
    ensures var (cmd, start) := (inputs[j].event.command, |states[j].writer.log|);
            var log, s := states[k].writer.log, states[k].store[states[k].streams[id]];
            && start < |log| && log[start] == Headers(id, cmd.body == [], true, false, cmd.headers)
            && var sent, covered := DataOf(log[start..], id), Covered(cmd.body);
               && SL.Payload(sent) + SL.Payload(s.pending) == covered
               && SL.EndsOnlyLast(sent + s.pending)
               && (covered != [] ==> SL.Ended(sent + s.pending))
               && (SL.Ended(sent) ==> s.pending == [] && SL.Payload(sent) == covered)
               && Sized(sent + s.pending, Announced(inputs[..j], 5, 16384))
  {
    hide IsRun, DataOf, Covered, Sole, SentBy, Requested, Sized, Announced;
    RequestedStream(states, inputs, j, k, id);
    ST.UploadInOrder(states, inputs, k, |states[j].store|);
    ST.SubmittedSplits(states, inputs, k, |states[j].store|);
    ServerIsBelieved(states, inputs, j);
  }

  /**
   The credit of a request, as sent and received frames tell it: the bytes on the wire and what is left of the
   window are the window the server had announced and its increments since; the same for the connection as a whole;
   and what is on the wire is the longest prefix of the body's frames that stays strictly below both limits.
   */
  lemma RequestSpendsCredit(states: seq<Connection>, inputs: seq<Input>, j: nat, k: nat, id: StreamId)
    requires IsRun(states, inputs) && j < k < |states| && Requested(states, j, k, id)
    ensures |states| == |inputs| + 1 && states[j].writer.log <= states[k].writer.log
    ensures id in states[k].streams && states[k].streams[id] < |states[k].store|
    ensures var (c, s, sent) := (states[k], states[k].store[states[k].streams[id]], SentSince(states, j, k, id));
            var credit := Announced(inputs[..j], 4, 65535) + CreditsFor(inputs[j + 1..k], id);
            var total := 65535 + CreditBy(inputs[..k]);
            var others := SL.Bytes(Datas(c.writer.log)) - SL.Bytes(sent);
            && SL.Bytes(sent) + s.sendWindow == credit && s.sendWindow >= 0
            && SL.Bytes(Datas(c.writer.log)) + c.writer.sendWindow == total && c.writer.sendWindow >= 1
            && ST.LongestBelow(|sent|, sent + s.pending, ST.Min(credit, total - others))
  {
    hide IsRun, DataOf, Sole, SentBy, RT.Reissued, Sized, Announced, SL.Bytes, Datas, ST.LongestBelow, CreditsFor,
         CreditBy;
    RequestedStream(states, inputs, j, k, id);
    var h := |states[j].store|;
    IssuedInStep(states, inputs, j);
    FirstWindows(states, inputs, j, k, h);
    ServerIsBelieved(states, inputs, k);
    ST.CreditConservation(states, inputs, k, h);
    ST.GreedyPrefix(states, inputs, k, id);
    ST.SubmittedSplits(states, inputs, k, h);
  }

  lemma IssuedInStep(states: seq<Connection>, inputs: seq<Input>, j: nat)
    requires IsRun(states, inputs) && j + 1 < |states|
    requires |states[j].hist.issuedIds| < |states[j + 1].hist.issuedIds|
    ensures |states[j].store| < |states[j + 1].store|
    ensures states[j + 1].store[|states[j].store|].hist.credit == 0
  {
    hide IsRun, Step, Sound, Valid, Legal, WellFormed, Sized, AsFrames, RT.IntakeOf;
    HL.RequestAt(states, inputs, j);
  }

  lemma UploadIsKept(c: Connection, c': Connection, h: nat)
    requires Grows(c, c') && h < |c.store|
    ensures h < |c'.store| && c'.store[h].hist.upload == c.store[h].hist.upload
    ensures StreamGrows(c.store[h], c'.store[h])
  {
    assert StreamGrows(c.store[h], c'.store[h]);
  }
}
