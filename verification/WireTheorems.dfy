/** What reaches the wire: the DATA frames of the log are the ones that the streams have written, stream by stream. */
module WireTheorems {
  import opened Wrappers
  import opened Frames
  import opened StreamState
  import opened StreamSpec
  import opened ConnectionSpec
  import opened Runs
  import opened Actions
  import opened Ledger
  import opened RequestLemmas
  import SL = StreamLemmas

  /** The DATA frames of a log. */
  function Datas(log: seq<Frame>): seq<DataFrame> {
    if log == [] then []
    else
      var last := log[|log| - 1];
      Datas(log[..|log| - 1]) + if last.Data? then [last.frame] else []
  }

  lemma DatasAppend(log: seq<Frame>, f: Frame)
    ensures Datas(log + [f]) == if f.Data? then Datas(log) + [f.frame] else Datas(log)
  {
    assert (log + [f])[..|log|] == log;
  }

  lemma {:induction false} DatasConcat(a: seq<Frame>, b: seq<Frame>)
    ensures Datas(a + b) == Datas(a) + Datas(b)
    decreases b
  {
    if b == [] {
      assert a + b == a;
    } else {
      var init := b[..|b| - 1];
      DatasConcat(a, init);
      assert (a + b)[..|a + b| - 1] == a + init;
    }
  }

  /** The frames of one stream. */
  function For(fs: seq<DataFrame>, id: StreamId): seq<DataFrame> {
    if fs == [] then []
    else
      var last := fs[|fs| - 1];
      For(fs[..|fs| - 1], id) + if last.streamId == id then [last] else []
  }

  lemma {:induction false} ForConcat(a: seq<DataFrame>, b: seq<DataFrame>, id: StreamId)
    ensures For(a + b, id) == For(a, id) + For(b, id)
    decreases b
  {
    if b == [] {
      assert a + b == a;
    } else {
      var init := b[..|b| - 1];
      ForConcat(a, init, id);
      assert (a + b)[..|a + b| - 1] == a + init;
    }
  }

  lemma {:induction false} ForOne(fs: seq<DataFrame>, owner: StreamId, id: StreamId)
    requires SL.AllFor(owner, fs)
    ensures For(fs, id) == if owner == id then fs else []
    decreases fs
  {
    if fs != [] {
      ForOne(fs[..|fs| - 1], owner, id);
    }
  }

  /** The DATA frames of a log that are for stream `id`. */
  function DataOf(log: seq<Frame>, id: StreamId): seq<DataFrame> {
    For(Datas(log), id)
  }

  // ---------------------------------------------------------------- operations on a stream

  /** What the stream has written meanwhile is what the log has gained in DATA frames. */
  ghost predicate Writes(v: View, v': View) {
    && v'.s.id == v.s.id
    && v.s.hist.written <= v'.s.hist.written
    && Datas(v'.w.log) == Datas(v.w.log) + v'.s.hist.written[|v.s.hist.written|..]
  }

  /** The same, and no credit comes in. */
  ghost predicate Carries(v: View, v': View) {
    Writes(v, v') && v'.s.hist.credit == v.s.hist.credit
  }

  lemma NothingCarried(v: View, v': View)
    requires v'.s.id == v.s.id && v'.s.hist.written == v.s.hist.written && Datas(v'.w.log) == Datas(v.w.log)
    requires v'.s.hist.credit == v.s.hist.credit
    ensures Carries(v, v')
  {
  }

  lemma CarriesTransitive(a: View, b: View, c: View)
    requires Carries(a, b) && Carries(b, c)
    ensures Carries(a, c)
  {
    var (p, q, r) := (a.s.hist.written, b.s.hist.written, c.s.hist.written);
    assert r[|p|..] == q[|p|..] + r[|q|..];
  }

  lemma SendDataCarries(v: View, d: DataFrame, first: bool)
    requires SendData(v, d, first).Ok?
    ensures Carries(v, SendData(v, d, first).value)
  {
    DatasAppend(v.w.log, Data(d));
    hide Datas, Outgoing;
  }

  lemma SendFrameCarries(v: View, f: Frame)
    requires SendFrame(v, f).Ok?
    ensures Carries(v, SendFrame(v, f).value)
  {
    DatasAppend(v.w.log, f);
    hide Datas, Outgoing, SendData;
    if f.Data? {
      SendDataCarries(v.(s := Submit(v.s, f.frame)), f.frame, v.s.pending == []);
    }
  }

  lemma CloseCarries(v: View, code: ErrorCode)
    requires CloseWithError(v, code).Ok?
    ensures Carries(v, CloseWithError(v, code).value)
  {
    hide SendFrame, Datas;
    if v.s.state != Closed {
      SendFrameCarries(v.(s := v.s.(err := Some(ClosedByClient(code)))), RstStream(v.s.id, code));
    }
  }

  lemma {:induction false} DrainCarries(v: View)
    requires ProcessPending(v).Ok?
    ensures Carries(v, ProcessPending(v).value)
    decreases |v.s.pending|
  {
    hide SendData, Datas;
    if v.s.pending != [] && Fits(v, |v.s.pending[0].data|) {
      var v0 := v.(s := v.s.(pending := v.s.pending[1..]));
      SendDataCarries(v0, v.s.pending[0], true);
      DrainShortens(v);
      var v1 := SendData(v0, v.s.pending[0], true).value;
      DrainCarries(v1);
      CarriesTransitive(v, v1, ProcessPending(v).value);
    }
  }

  lemma DrainShortens(v: View)
    requires v.s.pending != [] && Fits(v, |v.s.pending[0].data|)
    ensures var r := SendData(v.(s := v.s.(pending := v.s.pending[1..])), v.s.pending[0], true);
            r.Ok? ==> r.value.s.pending == v.s.pending[1..]
  {
    hide Outgoing;
  }

  lemma {:induction false} SendAllCarries(v: View, fs: seq<DataFrame>)
    requires SendAll(v, fs).Ok?
    ensures Carries(v, SendAll(v, fs).value)
    decreases fs
  {
    hide SendFrame, Datas;
    if fs != [] {
      var v1 := SendFrame(v, Data(fs[0])).value;
      SendFrameCarries(v, Data(fs[0]));
      SendAllCarries(v1, fs[1..]);
      CarriesTransitive(v, v1, SendAll(v1, fs[1..]).value);
    }
  }

  lemma SendRequestCarries(v: View, cmd: HttpCommand, frameSize: u32)
    requires SendRequest(v, cmd, frameSize).Ok?
    ensures Carries(v, SendRequest(v, cmd, frameSize).value)
  {
    hide SendFrame, SendAll, Chunks, Datas;
    var v1 := SendFrame(v, RequestHeaders(v.s.id, cmd)).value;
    SendFrameCarries(v, RequestHeaders(v.s.id, cmd));
    if cmd.body != [] {
      var fs := Chunks(v.s.id, cmd.body, frameSize, 0).value;
      SendAllCarries(v1, fs);
      CarriesTransitive(v, v1, SendAll(v1, fs).value);
    }
  }

  lemma AccountCarries(v: View, size: nat)
    requires AccountData(v, size).Ok?
    ensures Carries(v, AccountData(v, size).value)
  {
    hide SendFrame, Datas, ToUint32;
    var left := v.s.receiveWindow - size;
    if left < RECEIVE_THRESHOLD {
      var f := WindowUpdate(v.s.id, ToUint32(v.s.initialReceiveWindow - left));
      var s := v.s.(receiveWindow := left + (v.s.initialReceiveWindow - left),
                    hist := v.s.hist.(received := v.s.hist.received + size,
                    refilled := v.s.hist.refilled + ToUint32(v.s.initialReceiveWindow - left)));
      SendFrameCarries(v.(s := s), f);
    }
  }

  lemma DispatchCarries(v: View, f: Frame)
    requires Dispatch(v, f).Ok?
    ensures Carries(SL.Credited(v, f), Dispatch(v, f).value)
  {
    hide Datas;
    match f {
      case Data(d) => AccountCarries(v, |d.data|);
      case Headers(_, _, endHeaders, _, _) => if !endHeaders { CloseCarries(v, REFUSED_STREAM); }
      case PushPromise(_, endHeaders, _, _) => if !endHeaders { CloseCarries(v, REFUSED_STREAM); }
      case WindowUpdate(_, increment) => DrainCarries(SL.Credited(v, f));
      case _ =>
    }
    hide CloseWithError, ProcessPending, AccountData;
  }

  lemma ReceiveCarries(v: View, f: Frame)
    requires ReceiveFrame(v, f).Ok?
    ensures Carries(SL.Credited(v, f), ReceiveFrame(v, f).value)
    ensures Writes(v, ReceiveFrame(v, f).value)
  {
    hide Datas, Finalize, Dispatch, CloseWithError;
    if Incoming(v.s.state, f).None? {
      CloseCarries(v, STREAM_CLOSED);
    } else {
      var v1 := v.(s := SetStates(v.s, Incoming(v.s.state, f).value));
      hide Incoming;
      DispatchCarries(v1, f);
      var v2 := Dispatch(v1, f).value;
      NothingCarried(SL.Credited(v, f), SL.Credited(v1, f));
      CarriesTransitive(SL.Credited(v, f), SL.Credited(v1, f), v2);
      SL.FinalizeWritesNothing(v.s, v2);
      NothingCarried(v2, FinalizeIfNewlyClosed(v.s, v2));
      CarriesTransitive(SL.Credited(v, f), v2, FinalizeIfNewlyClosed(v.s, v2));
    }
  }

  // ---------------------------------------------------------------- the connection

  /** What was written on stream `id`, over all stream objects that had the id, oldest first. */
  function WrittenFor(store: seq<Stream>, id: StreamId): seq<DataFrame> {
    if store == [] then []
    else
      var last := store[|store| - 1];
      WrittenFor(store[..|store| - 1], id) + if last.id == id then last.hist.written else []
  }

  lemma {:induction false} WrittenForSame(store: seq<Stream>, h: nat, s: Stream, id: StreamId)
    requires h < |store| && s.id == store[h].id
    requires s.id == id ==> s.hist.written == store[h].hist.written
    ensures WrittenFor(store[h := s], id) == WrittenFor(store, id)
    decreases store
  {
    var k := |store| - 1;
    if h == k {
      assert store[h := s][..k] == store[..k];
    } else {
      assert store[h := s][..k] == store[..k][h := s];
      WrittenForSame(store[..k], h, s, id);
    }
  }

  lemma SplitAt(a: seq<DataFrame>, p: seq<DataFrame>, q: seq<DataFrame>)
    requires p <= q
    ensures a + q == (a + p) + q[|p|..]
  {
  }

  /** The newest object that has the id writes more. */
  lemma {:induction false} WrittenForUpdate(store: seq<Stream>, h: nat, s: Stream)
    requires h < |store| && s.id == store[h].id && store[h].hist.written <= s.hist.written
    requires forall g :: h < g < |store| ==> store[g].id != s.id
    ensures WrittenFor(store[h := s], s.id) ==
            WrittenFor(store, s.id) + s.hist.written[|store[h].hist.written|..]
    decreases store
  {
    var k := |store| - 1;
    if h == k {
      assert store[h := s][..k] == store[..k];
      SplitAt(WrittenFor(store[..k], s.id), store[h].hist.written, s.hist.written);
    } else {
      assert store[h := s][..k] == store[..k][h := s];
      WrittenForUpdate(store[..k], h, s);
    }
  }

  lemma WrittenForAppend(store: seq<Stream>, s: Stream, id: StreamId)
    ensures WrittenFor(store + [s], id) == WrittenFor(store, id) + if s.id == id then s.hist.written else []
  {
    assert (store + [s])[..|store|] == store;
  }

  /** The map leads to the newest object of each id. */
  ghost predicate Newest(c: Connection) {
    forall h :: 0 <= h < |c.store| ==> c.store[h].id in c.streams && h <= c.streams[c.store[h].id]
  }

  /** The log has the DATA frames that the streams have written, and no others. */
  ghost predicate OnTheWire(log: seq<Frame>, store: seq<Stream>) {
    && (forall id: StreamId :: DataOf(log, id) == WrittenFor(store, id))
    && SL.Bytes(Datas(log)) == TotalWritten(store)
  }

  ghost predicate Wired(c: Connection) {
    Newest(c) && OnTheWire(c.writer.log, c.store)
  }

  lemma PutWires(c: Connection, h: nat, v: View)
    requires Wired(c) && h < |c.store| && Writes(ViewOf(c, h), v) && SL.AllFor(v.s.id, v.s.hist.written)
    requires c.store[h].id in c.streams && c.streams[c.store[h].id] == h
    ensures Wired(Put(c, h, v))
  {
    var gained := v.s.hist.written[|c.store[h].hist.written|..];
    forall id: StreamId ensures DataOf(v.w.log, id) == WrittenFor(c.store[h := v.s], id) {
      assert DataOf(c.writer.log, id) == WrittenFor(c.store, id);
      ForConcat(Datas(c.writer.log), gained, id);
      ForOne(gained, v.s.id, id);
      if v.s.id == id {
        WrittenForUpdate(c.store, h, v.s);
      } else {
        WrittenForSame(c.store, h, v.s, id);
      }
      hide For, WrittenFor, Datas;
    }
    SL.BytesConcat(Datas(c.writer.log), gained);
    assert v.s.hist.written == c.store[h].hist.written + gained;
    SL.BytesConcat(c.store[h].hist.written, gained);
    TotalWrittenUpdate(c.store, h, v.s);
    hide For, WrittenFor, Datas, SL.Bytes, TotalWritten, DataOf;
  }

  /** A change that writes no DATA. */
  lemma SameWires(c: Connection, c': Connection)
    requires Wired(c) && c'.store == c.store && c'.streams == c.streams
    requires Datas(c'.writer.log) == Datas(c.writer.log)
    ensures Wired(c')
  {
    assert forall id: StreamId :: DataOf(c'.writer.log, id) == DataOf(c.writer.log, id);
    hide Datas, For, DataOf, WrittenFor, TotalWritten;
  }

  lemma QuietPutWires(c: Connection, h: nat, v: View)
    requires Wired(c) && h < |c.store| && v.s.id == c.store[h].id && v.s.hist.written == c.store[h].hist.written
    requires Datas(v.w.log) == Datas(c.writer.log)
    ensures Wired(Put(c, h, v))
  {
    forall id: StreamId ensures DataOf(v.w.log, id) == WrittenFor(c.store[h := v.s], id) {
      assert DataOf(c.writer.log, id) == WrittenFor(c.store, id);
      WrittenForSame(c.store, h, v.s, id);
      hide For, WrittenFor, Datas;
    }
    TotalWrittenUpdate(c.store, h, v.s);
    hide For, WrittenFor, Datas, SL.Bytes, TotalWritten, DataOf;
  }

  lemma AddWires(c: Connection, s: Stream)
    requires Wired(c) && s.hist.written == []
    requires s.id in c.streams ==> c.streams[s.id] < |c.store|
    ensures Wired(AddStream(c, s))
  {
    forall id: StreamId ensures DataOf(c.writer.log, id) == WrittenFor(c.store + [s], id) {
      assert DataOf(c.writer.log, id) == WrittenFor(c.store, id);
      WrittenForAppend(c.store, s, id);
    }
    TotalWrittenAppend(c.store, s);
    hide For, WrittenFor, Datas, SL.Bytes, TotalWritten, DataOf;
  }

  // ---------------------------------------------------------------- actions

  lemma MappedWires(c: Connection, id: StreamId, v: View)
    requires Sound(c) && Wired(c) && Known(c, id) && Writes(ViewOf(c, c.streams[id]), v) && SL.Valid(v.s)
    ensures Wired(Put(c, c.streams[id], v))
  {
    Lookup(c, id);
    hide Sound, Wired, Writes, SL.Bytes;
    WritesKeepsId(ViewOf(c, c.streams[id]), v);
    WrittenIsFor(v.s);
    PutWires(c, c.streams[id], v);
  }

  lemma WritesKeepsId(v: View, v': View)
    requires Writes(v, v')
    ensures v'.s.id == v.s.id
  {
  }

  lemma WrittenIsFor(s: Stream)
    requires SL.Valid(s)
    ensures SL.AllFor(s.id, s.hist.written)
  {
    assert forall k :: 0 <= k < |s.hist.written| ==> s.hist.written[k] == s.hist.submitted[k];
  }

  lemma DeliversWires(c: Connection, id: StreamId, f: Frame)
    requires Sound(c) && Wired(c) && Known(c, id) && ReceiveOn(c, c.streams[id], f).Ok?
    ensures Wired(ReceiveOn(c, c.streams[id], f).value)
  {
    Lookup(c, id);
    hide Sound, Wired, ReceiveFrame, SL.Valid, Writes, StreamSound;
    var v := ViewOf(c, c.streams[id]);
    SL.ReceiveFrameKeeps(v, f);
    ReceiveCarries(v, f);
    KeptIsValid(v, ReceiveFrame(v, f).value);
    MappedWires(c, id, ReceiveFrame(v, f).value);
  }

  lemma KeptIsValid(v: View, v': View)
    requires SL.Keeps(v, v')
    ensures SL.Valid(v'.s)
  {
  }

  lemma RefusesWires(c: Connection, id: StreamId)
    requires Sound(c) && Wired(c) && Known(c, id)
    ensures CloseWithError(ViewOf(c, c.streams[id]), REFUSED_STREAM).Ok?
    ensures Wired(Put(c, c.streams[id], CloseWithError(ViewOf(c, c.streams[id]), REFUSED_STREAM).value))
  {
    Lookup(c, id);
    hide Sound, Wired, CloseWithError, SL.Valid, Writes, StreamSound;
    var v := ViewOf(c, c.streams[id]);
    SL.CloseWithErrorKeeps(v, REFUSED_STREAM);
    CloseCarries(v, REFUSED_STREAM);
    KeptIsValid(v, CloseWithError(v, REFUSED_STREAM).value);
    MappedWires(c, id, CloseWithError(v, REFUSED_STREAM).value);
  }

  lemma DrainsWires(c: Connection, id: StreamId)
    requires Sound(c) && Wired(c) && DrainOne(c, id).Ok?
    ensures Wired(DrainOne(c, id).value)
  {
    if Known(c, id) {
      Lookup(c, id);
      var v := ViewOf(c, c.streams[id]);
      hide Sound, Wired, ProcessPending, SL.Valid, Writes, StreamSound, Silenced, SL.Keeps, SL.Settled, SL.Conserves;
      SL.ProcessPendingKeeps(v);
      DrainNeedsProcess(c, id);
      var v1 := ProcessPending(v).value;
      DrainCarries(v);
      DrainOneIs(c, id, v1);
      SilenceKeeps(v, v1);
      SoundIsValid(Silenced(v, v1).s);
      SilencedCarries(v, v1);
      MappedWires(c, id, Silenced(v, v1));
    }
  }

  lemma SilencedCarries(v: View, v1: View)
    requires Carries(v, v1)
    ensures Carries(v, Silenced(v, v1))
  {
  }

  lemma SoundIsValid(s: Stream)
    requires StreamSound(s)
    ensures SL.Valid(s)
  {
  }

  lemma RequestsWires(c: Connection, cmd: HttpCommand)
    requires Sound(c) && Wired(c) && DoRequest(c, cmd).Ok?
    ensures Wired(DoRequest(c, cmd).value)
  {
    var id := NextId(c.streams.Keys);
    var s := New(id, Some(cmd), cmd.body, c.initialSendWindow, c.initialReceiveWindow);
    var v := View(s, c.writer);
    NewStreamValid(id, Some(cmd), cmd.body, c.initialSendWindow, c.initialReceiveWindow, c.writer);
    SendRequestKeeps(v, cmd, c.serverFrameSize);
    var c1 := NewStream(c, cmd);
    assert c1.streams[id] == |c.store| && c1.store == c.store + [s] && c1.writer == c.writer;
    assert c1.streams == AddStream(c, s).streams;
    assert DoRequest(c, cmd) == Ok(Put(c1, |c.store|, SendRequest(v, cmd, c.serverFrameSize).value));
    hide NextId, SendRequest, NewStream, SL.Evolves, Uploaded, SL.Settled, Wired, Writes, Cuttable, DoRequest,
         StreamSound;
    AddWires(c, s) by { MappedInStore(c, id); }
    SameWires(AddStream(c, s), c1);
    SendRequestCarries(v, cmd, c.serverFrameSize);
    var v' := SendRequest(v, cmd, c.serverFrameSize).value;
    WritesKeepsId(v, v');
    WrittenIsFor(v'.s);
    assert ViewOf(c1, |c.store|) == v;
    PutWires(c1, |c.store|, v');
  }

  lemma MappedInStore(c: Connection, id: StreamId)
    requires Sound(c)
    ensures id in c.streams ==> c.streams[id] < |c.store|
  {
    hide StreamSound;
  }

  lemma TakesWires(c: Connection, cmd: HttpCommand, id: StreamId)
    requires Wired(c) && id in c.cache && c.cache[id] < |c.store|
    ensures Wired(TakeFromCache(c, cmd, id))
  {
    hide Wired, Finalize, Datas;
    var h := c.cache[id];
    var v := Associate(ViewOf(c, h), cmd).0;
    AssociateWritesNothing(ViewOf(c, h), cmd);
    QuietPutWires(c, h, v);
    SameWires(Put(c, h, v), TakeFromCache(c, cmd, id));
  }

  lemma AssociateWritesNothing(v: View, cmd: HttpCommand)
    ensures var v' := Associate(v, cmd).0;
            v'.w.log == v.w.log && v'.s.id == v.s.id && v'.s.hist.written == v.s.hist.written
  {
  }

  lemma CreatesWires(c: Connection, id: StreamId)
    requires Sound(c) && Wired(c)
    ensures Wired(GetOrCreate(c, id))
  {
    hide Wired, Sound;
    if id !in c.streams {
      AddWires(c, New(id, None, [], c.initialSendWindow, c.initialReceiveWindow));
    }
  }

  /** The actions that touch no stream object write no DATA. */
  lemma PlainWires(c: Connection, a: Action)
    requires Wired(c) && Plain(a)
    ensures Act(c, a).Ok? && Wired(Act(c, a).value)
  {
    PlainKeepsStore(c, a);
    PlainDatas(c, a);
    hide Wired, Datas, Act, Plain;
    SameWires(c, Act(c, a).value);
  }

  lemma PlainDatas(c: Connection, a: Action)
    requires Plain(a) && Act(c, a).Ok?
    ensures Datas(Act(c, a).value.writer.log) == Datas(c.writer.log)
  {
    hide Datas, ToUint32, ReceiveOn, CloseWithError, DrainOne, DoRequest, TakeFromCache, GetOrCreate;
    match a {
      case Accounts(size) =>
        DatasAppend(c.writer.log, WindowUpdate(0, ToUint32(INITIAL_WINDOW - (c.receiveWindow - size))));
      case Configures(settings, ack) => DatasAppend(c.writer.log, Settings(0, true, map[]));
      case Pings(cmd) => DatasAppend(c.writer.log, Ping(0, c.nextPingId, false));
      case Pongs(payload, ack) => DatasAppend(c.writer.log, Ping(0, payload, true));
      case _ =>
    }
  }

  lemma ActWires(c: Connection, a: Action)
    requires Sound(c) && Wired(c) && Act(c, a).Ok?
    ensures Wired(Act(c, a).value)
  {
    hide Wired, Sound, ReceiveOn, CloseWithError, DrainOne, DoRequest, TakeFromCache, GetOrCreate;
    match a {
      case Delivers(id, f) => if Known(c, id) { DeliversWires(c, id, f); }
      case Refuses(id) => if Known(c, id) { RefusesWires(c, id); }
      case Drains(id) => DrainsWires(c, id);
      case Creates(id) => CreatesWires(c, id);
      case Requests(cmd) => RequestsWires(c, cmd);
      case Takes(cmd, id) => if id in c.cache && c.cache[id] < |c.store| { TakesWires(c, cmd, id); }
      case _ => PlainWires(c, a);
    }
  }

  lemma StepWires(c: Connection, i: Input)
    requires Sound(c) && Wired(c) && WellFormed(c) && Step(c, i).Ok?
    ensures Wired(Step(c, i).value)
  {
    hide Step, Sound, Wired, Act, Belongs;
    forall c1, a | Sound(c1) && Wired(c1) && Belongs(i.event, a) && Act(c1, a).Ok?
      ensures Wired(Act(c1, a).value)
    {
      ActWires(c1, a);
    }
    StepKeepsInvariant(c, i, c1 => Wired(c1));
  }

  lemma InitiallyWired(c: Connection)
    requires c.store == [] && c.writer.log == [Settings(0, false, map[])]
    ensures Wired(c)
  {
    DatasAppend([], Settings(0, false, map[]));
    assert [] + [Settings(0, false, map[])] == [Settings(0, false, map[])];
    assert Datas([]) == [];
    hide Datas;
    assert forall id: StreamId :: For([], id) == [] && WrittenFor([], id) == [];
  }

  /**
   In every state of every run the DATA frames of the log, stream by stream and in order, are those the streams have
   written, and all of them together have the bytes that all streams have written.
   */
  lemma {:induction false} LogCarriesData(states: seq<Connection>, inputs: seq<Input>, k: nat)
    requires IsRun(states, inputs) && k < |states|
    ensures Newest(states[k]) && OnTheWire(states[k].writer.log, states[k].store)
  {
    hide IsRun, Step, Sound, Valid, Legal, WellFormed, Newest, OnTheWire;
    RunShape(states, inputs);
    if k == 0 {
      InitiallyWired(states[0]);
    } else {
      LogCarriesData(states, inputs, k - 1);
      RunStep(states, inputs, k);
      StepWires(states[k - 1], inputs[k - 1]);
    }
  }

  // ---------------------------------------------------------------- one stream object

  /** No other object has had the id of this one. */
  ghost predicate Sole(store: seq<Stream>, h: nat)
    requires h < |store|
  {
    forall g :: 0 <= g < |store| && g != h ==> store[g].id != store[h].id
  }

  /**
   The frames that the log has for one stream object: those for its id, without what older and newer objects of the same
   id have sent, if there are any.
   */
  function SentBy(c: Connection, h: nat): seq<DataFrame>
    requires h < |c.store|
  {
    var id := c.store[h].id;
    var all := DataOf(c.writer.log, id);
    var (older, newer) := (|WrittenFor(c.store[..h], id)|, |WrittenFor(c.store[h + 1..], id)|);
    if older + newer <= |all| then all[older..|all| - newer] else all
  }

  lemma {:induction false} WrittenForConcat(a: seq<Stream>, b: seq<Stream>, id: StreamId)
    ensures WrittenFor(a + b, id) == WrittenFor(a, id) + WrittenFor(b, id)
    decreases b
  {
    if b == [] {
      assert a + b == a;
    } else {
      var init := b[..|b| - 1];
      WrittenForConcat(a, init, id);
      assert (a + b)[..|a + b| - 1] == a + init;
    }
  }

  lemma {:induction false} WrittenForNone(store: seq<Stream>, id: StreamId)
    requires forall g :: 0 <= g < |store| ==> store[g].id != id
    ensures WrittenFor(store, id) == []
    decreases store
  {
    if store != [] {
      WrittenForNone(store[..|store| - 1], id);
    }
  }

  lemma WrittenForOne(s: Stream)
    ensures WrittenFor([s], s.id) == s.hist.written
  {
    assert WrittenFor([s][..0], s.id) == [];
  }

  /** The frames written on an id, split at one of its objects. */
  lemma WrittenForSplit(store: seq<Stream>, h: nat)
    requires h < |store|
    ensures var s := store[h];
            && WrittenFor(store, s.id) ==
               WrittenFor(store[..h], s.id) + s.hist.written + WrittenFor(store[h + 1..], s.id)
            && (Sole(store, h) ==> WrittenFor(store, s.id) == s.hist.written)
  {
    var (s, older, newer) := (store[h], store[..h], store[h + 1..]);
    assert store == older + [s] + newer;
    WrittenForConcat(older + [s], newer, s.id);
    WrittenForConcat(older, [s], s.id);
    WrittenForOne(s);
    if Sole(store, h) {
      WrittenForNone(older, s.id);
      WrittenForNone(newer, s.id);
    }
    hide WrittenFor;
  }

  /** Those are the frames that the stream has written; with no other object of the id, all that the log has for it. */
  lemma SentIsWritten(states: seq<Connection>, inputs: seq<Input>, k: nat, h: nat)
    requires IsRun(states, inputs) && k < |states| && h < |states[k].store|
    ensures SentBy(states[k], h) == states[k].store[h].hist.written
    ensures Sole(states[k].store, h) ==>
            SentBy(states[k], h) == DataOf(states[k].writer.log, states[k].store[h].id)
  {
    hide IsRun, DataOf, Newest, Datas, TotalWritten, SL.Bytes, WrittenFor, Sole;
    LogCarriesData(states, inputs, k);
    WrittenForSplit(states[k].store, h);
  }
}
