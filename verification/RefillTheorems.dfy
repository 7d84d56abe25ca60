/** How the client refills its receive windows: the arithmetic of the WINDOW_UPDATE frames it sends. */
module RefillTheorems {
  import opened Wrappers
  import opened Frames
  import opened StreamState
  import opened StreamSpec
  import opened ConnectionSpec
  import opened Runs
  import opened Actions
  import SL = StreamLemmas

  const MAX_PAYLOAD := 0x100_0000    // the length field of a frame has 24 bits
  const MAX_INCREMENT := 0x7FFF_FFFF

  /** The WINDOW_UPDATE frames of a log. */
  function Updates(log: seq<Frame>): seq<Frame> {
    if log == [] then []
    else
      var last := log[|log| - 1];
      Updates(log[..|log| - 1]) + if last.WindowUpdate? then [last] else []
  }

  lemma UpdatesAppend(log: seq<Frame>, f: Frame)
    ensures Updates(log + [f]) == if f.WindowUpdate? then Updates(log) + [f] else Updates(log)
  {
    assert (log + [f])[..|log|] == log;
  }

  /** The sum of the increments sent for `id`. */
  function Emitted(updates: seq<Frame>, id: StreamId): nat {
    if updates == [] then 0
    else
      var last := updates[|updates| - 1];
      Emitted(updates[..|updates| - 1], id) + if last.WindowUpdate? && last.streamId == id then last.increment else 0
  }

  lemma EmittedAppend(updates: seq<Frame>, f: Frame, id: StreamId)
    ensures Emitted(updates + [f], id) == Emitted(updates, id) + if f.WindowUpdate? && f.streamId == id then f.increment
            else 0
  {
    assert (updates + [f])[..|updates|] == updates;
  }

  // ---------------------------------------------------------------- operations that receive nothing

  predicate SameWindow(s: Stream, s': Stream) {
    && s'.receiveWindow == s.receiveWindow
    && s'.initialReceiveWindow == s.initialReceiveWindow
    && s'.hist.received == s.hist.received
    && s'.hist.refilled == s.hist.refilled
    && s'.id == s.id
  }

  predicate Quiet(v: View, v': View) {
    SameWindow(v.s, v'.s) && Updates(v'.w.log) == Updates(v.w.log)
  }

  lemma SendDataQuiet(v: View, d: DataFrame, first: bool)
    requires SendData(v, d, first).Ok?
    ensures Quiet(v, SendData(v, d, first).value)
  {
    UpdatesAppend(v.w.log, Data(d));
    hide Updates, Outgoing;
  }

  lemma SendFrameQuiet(v: View, f: Frame)
    requires SendFrame(v, f).Ok? && !f.WindowUpdate?
    ensures Quiet(v, SendFrame(v, f).value)
  {
    UpdatesAppend(v.w.log, f);
    hide Updates, Outgoing, SendData;
    if f.Data? {
      SendDataQuiet(v.(s := Submit(v.s, f.frame)), f.frame, v.s.pending == []);
    }
  }

  lemma CloseQuiet(v: View, code: ErrorCode)
    requires CloseWithError(v, code).Ok?
    ensures Quiet(v, CloseWithError(v, code).value)
  {
    hide SendFrame, Updates;
    if v.s.state != Closed {
      SendFrameQuiet(v.(s := v.s.(err := Some(ClosedByClient(code)))), RstStream(v.s.id, code));
    }
  }

  lemma {:induction false} DrainQuiet(v: View)
    requires ProcessPending(v).Ok?
    ensures Quiet(v, ProcessPending(v).value)
    decreases |v.s.pending|
  {
    hide SendData, Updates;
    if v.s.pending != [] && Fits(v, |v.s.pending[0].data|) {
      var v0 := v.(s := v.s.(pending := v.s.pending[1..]));
      SendDataQuiet(v0, v.s.pending[0], true);
      DrainShrinks(v);
      DrainQuiet(SendData(v0, v.s.pending[0], true).value);
    }
  }

  lemma DrainShrinks(v: View)
    requires v.s.pending != [] && Fits(v, |v.s.pending[0].data|)
    ensures var r := SendData(v.(s := v.s.(pending := v.s.pending[1..])), v.s.pending[0], true);
            r.Ok? ==> r.value.s.pending == v.s.pending[1..]
  {
    hide Outgoing;
  }

  lemma {:induction false} SendAllQuiet(v: View, fs: seq<DataFrame>)
    requires SendAll(v, fs).Ok?
    ensures Quiet(v, SendAll(v, fs).value)
    decreases fs
  {
    hide SendFrame, Updates;
    if fs != [] {
      SendFrameQuiet(v, Data(fs[0]));
      SendAllQuiet(SendFrame(v, Data(fs[0])).value, fs[1..]);
    }
  }

  lemma SendRequestQuiet(v: View, cmd: HttpCommand, frameSize: u32)
    requires SendRequest(v, cmd, frameSize).Ok?
    ensures Quiet(v, SendRequest(v, cmd, frameSize).value)
  {
    hide SendFrame, SendAll, Chunks, Updates;
    SendFrameQuiet(v, RequestHeaders(v.s.id, cmd));
    var v1 := SendFrame(v, RequestHeaders(v.s.id, cmd)).value;
    if cmd.body != [] {
      SendAllQuiet(v1, Chunks(v.s.id, cmd.body, frameSize, 0).value);
    }
  }

  // ---------------------------------------------------------------- receiving

  /**
   Between one frame and the initial window is left, and bytes received and left are initial window and increments sent.
   */
  predicate Refilled(window: int, received: nat, refilled: nat) {
    && RECEIVE_THRESHOLD <= window <= INITIAL_WINDOW
    && received + window == INITIAL_WINDOW + refilled
  }

  predicate StreamRefilled(s: Stream) {
    s.initialReceiveWindow == INITIAL_WINDOW && Refilled(s.receiveWindow, s.hist.received, s.hist.refilled)
  }

  /** At most one WINDOW_UPDATE more, for this stream, with an increment that a frame can carry. */
  predicate Updated(v: View, v': View) {
    var (u, u') := (Updates(v.w.log), Updates(v'.w.log));
    && v'.s.id == v.s.id
    && v'.s.hist.refilled >= v.s.hist.refilled
    && var n := v'.s.hist.refilled - v.s.hist.refilled;
       if n == 0 then u' == u
       else 1 <= n <= MAX_INCREMENT && u' == u + [WindowUpdate(v.s.id, n)]
  }

  lemma QuietUpdates(v: View, v': View)
    requires Quiet(v, v')
    ensures Updated(v, v') && (StreamRefilled(v.s) ==> StreamRefilled(v'.s))
  {
    hide Updates;
  }

  lemma AccountRefills(v: View, size: nat)
    requires SL.Valid(v.s) && StreamRefilled(v.s) && size < MAX_PAYLOAD
    ensures AccountData(v, size).Ok?
    ensures StreamRefilled(AccountData(v, size).value.s) && Updated(v, AccountData(v, size).value)
  {
    hide AccountData, SL.Valid, SL.Keeps, Updates, ToUint32;
    SL.AccountDataKeeps(v, size);
    var left := v.s.receiveWindow - size;
    if left < RECEIVE_THRESHOLD {
      var diff := INITIAL_WINDOW - left;
      NoWrap(diff);
      UpdatesAppend(v.w.log, WindowUpdate(v.s.id, diff));
    }
  }

  lemma NoWrap(n: int)
    requires 0 <= n < 0x1_0000_0000
    ensures ToUint32(n) == n
  {
  }

  predicate Small(f: Frame) {
    f.Data? ==> |f.frame.data| < MAX_PAYLOAD
  }

  lemma ReceiveRefills(v: View, f: Frame)
    requires SL.Valid(v.s) && StreamRefilled(v.s) && Small(f) && ReceiveFrame(v, f).Ok?
    ensures StreamRefilled(ReceiveFrame(v, f).value.s) && Updated(v, ReceiveFrame(v, f).value)
  {
    hide Updates, SL.Valid, StreamRefilled, Updated, Finalize;
    if Incoming(v.s.state, f).None? {
      CloseQuiet(v, STREAM_CLOSED);
      hide CloseWithError;
      QuietUpdates(v, CloseWithError(v, STREAM_CLOSED).value);
    } else {
      var v1 := v.(s := SetStates(v.s, Incoming(v.s.state, f).value));
      SL.IncomingValid(v.s, f);
      assert Quiet(v, v1);
      QuietUpdates(v, v1);
      hide Incoming, SetStates;
      DispatchRefills(v1, f);
      hide Dispatch;
      var v2 := Dispatch(v1, f).value;
      SL.FinalizeWritesNothing(v.s, v2);
      AfterQuiet(v, v1, v2, FinalizeIfNewlyClosed(v.s, v2));
    }
  }

  lemma AssociateIsQuiet(v: View, cmd: HttpCommand)
    ensures Quiet(v, Associate(v, cmd).0)
  {
    hide Updates;
  }

  /** Quiet changes before and after a refill do not matter. */
  lemma AfterQuiet(v: View, v1: View, v2: View, v3: View)
    requires Quiet(v, v1) && Updated(v1, v2) && StreamRefilled(v2.s) && v3.s == v2.s && v3.w.log == v2.w.log
    ensures Updated(v, v3) && StreamRefilled(v3.s)
  {
    hide Updates;
  }

  lemma DispatchRefills(v: View, f: Frame)
    requires SL.Valid(v.s) && StreamRefilled(v.s) && Small(f) && Dispatch(v, f).Ok?
    ensures StreamRefilled(Dispatch(v, f).value.s) && Updated(v, Dispatch(v, f).value)
  {
    hide Updates, SL.Valid;
    if f.Data? {
      AccountRefills(v, |f.frame.data|);
      hide AccountData;
    } else {
      DispatchQuiet(v, f);
      hide Dispatch;
      QuietUpdates(v, Dispatch(v, f).value);
    }
  }

  lemma DispatchQuiet(v: View, f: Frame)
    requires !f.Data? && Dispatch(v, f).Ok?
    ensures Quiet(v, Dispatch(v, f).value)
  {
    hide Updates;
    match f {
      case Headers(_, _, endHeaders, _, _) => if !endHeaders { CloseQuiet(v, REFUSED_STREAM); }
      case PushPromise(_, endHeaders, _, _) => if !endHeaders { CloseQuiet(v, REFUSED_STREAM); }
      case WindowUpdate(_, increment) => DrainQuiet(SL.Credited(v, f));
      case _ =>
    }
    hide CloseWithError, ProcessPending;
  }

  // ---------------------------------------------------------------- the connection

  /** The increments sent on streams with this id, over all stream objects that had it. */
  function RefilledFor(store: seq<Stream>, id: StreamId): nat {
    if store == [] then 0
    else
      var last := store[|store| - 1];
      RefilledFor(store[..|store| - 1], id) + if last.id == id then last.hist.refilled else 0
  }

  lemma {:induction false} RefilledForUpdate(store: seq<Stream>, h: nat, s: Stream, id: StreamId)
    requires h < |store| && s.id == store[h].id
    ensures RefilledFor(store[h := s], id) ==
            RefilledFor(store, id) + if s.id == id then s.hist.refilled - store[h].hist.refilled else 0
    decreases store
  {
    var k := |store| - 1;
    if h == k {
      assert store[h := s][..k] == store[..k];
    } else {
      assert store[h := s][..k] == store[..k][h := s];
      RefilledForUpdate(store[..k], h, s, id);
    }
  }

  lemma RefilledForAppend(store: seq<Stream>, s: Stream, id: StreamId)
    ensures RefilledFor(store + [s], id) == RefilledFor(store, id) + if s.id == id then s.hist.refilled else 0
  {
    assert (store + [s])[..|store|] == store;
  }

  /** What the log says was sent is what was refilled, in frames that are legal on the wire. */
  ghost predicate LogRefilled(updates: seq<Frame>, store: seq<Stream>, refilled: nat) {
    && (forall k :: 0 <= k < |updates| ==> updates[k].WindowUpdate? && 1 <= updates[k].increment <= MAX_INCREMENT)
    && (forall id: StreamId :: Emitted(updates, id) == RefilledFor(store, id) + if id == 0 then refilled else 0)
  }

  ghost predicate AllRefilled(c: Connection) {
    && c.initialReceiveWindow == INITIAL_WINDOW
    && Refilled(c.receiveWindow, c.hist.received, c.hist.refilled)
    && (forall h :: 0 <= h < |c.store| ==> StreamRefilled(c.store[h]))
    && LogRefilled(Updates(c.writer.log), c.store, c.hist.refilled)
  }

  lemma PutRefills(c: Connection, h: nat, v: View)
    requires AllRefilled(c) && h < |c.store| && StreamRefilled(v.s) && Updated(ViewOf(c, h), v)
    ensures AllRefilled(Put(c, h, v))
  {
    var (u, u') := (Updates(c.writer.log), Updates(v.w.log));
    hide Updates;
    var n := v.s.hist.refilled - c.store[h].hist.refilled;
    forall id: StreamId
      ensures Emitted(u', id) == RefilledFor(c.store[h := v.s], id) + if id == 0 then c.hist.refilled else 0
    {
      RefilledForUpdate(c.store, h, v.s, id);
      if n != 0 {
        EmittedAppend(u, WindowUpdate(v.s.id, n), id);
      }
      assert Emitted(u, id) == RefilledFor(c.store, id) + if id == 0 then c.hist.refilled else 0;
      hide Emitted, RefilledFor;
    }
    hide Emitted, RefilledFor, StreamRefilled;
  }

  lemma AppendRefills(c: Connection, c': Connection, s: Stream)
    requires AllRefilled(c) && c'.store == c.store + [s] && Updates(c'.writer.log) == Updates(c.writer.log)
    requires StreamRefilled(s) && s.hist.refilled == 0
    requires c'.initialReceiveWindow == c.initialReceiveWindow && c'.receiveWindow == c.receiveWindow
    requires c'.hist.received == c.hist.received && c'.hist.refilled == c.hist.refilled
    ensures AllRefilled(c')
  {
    var u := Updates(c.writer.log);
    hide Updates;
    forall id: StreamId ensures Emitted(u, id) == RefilledFor(c'.store, id) + if id == 0 then c'.hist.refilled else 0 {
      RefilledForAppend(c.store, s, id);
      assert Emitted(u, id) == RefilledFor(c.store, id) + if id == 0 then c.hist.refilled else 0;
      hide Emitted, RefilledFor;
    }
    hide Emitted, RefilledFor, StreamRefilled;
  }

  /** A change that has nothing to do with received data. */
  predicate Unrelated(c: Connection, c': Connection) {
    && c'.store == c.store && Updates(c'.writer.log) == Updates(c.writer.log)
    && c'.initialReceiveWindow == c.initialReceiveWindow && c'.receiveWindow == c.receiveWindow
    && c'.hist.received == c.hist.received && c'.hist.refilled == c.hist.refilled
  }

  lemma UnrelatedRefills(c: Connection, c': Connection)
    requires AllRefilled(c) && Unrelated(c, c')
    ensures AllRefilled(c')
  {
    hide Updates, LogRefilled, StreamRefilled;
  }

  lemma AccountsRefills(c: Connection, size: nat)
    requires AllRefilled(c) && size < MAX_PAYLOAD
    ensures AllRefilled(AccountConnectionData(c, size))
  {
    var left := c.receiveWindow - size;
    hide Updates, StreamRefilled;
    if left < RECEIVE_THRESHOLD {
      var diff := INITIAL_WINDOW - left;
      assert ToUint32(diff) == diff;
      UpdatesAppend(c.writer.log, WindowUpdate(0, diff));
      hide ToUint32;
      LogRefills(Updates(c.writer.log), c.store, c.hist.refilled, diff);
    }
    hide LogRefilled;
  }

  lemma LogRefills(u: seq<Frame>, store: seq<Stream>, refilled: nat, diff: u32)
    requires LogRefilled(u, store, refilled) && 1 <= diff <= MAX_INCREMENT
    ensures LogRefilled(u + [WindowUpdate(0, diff)], store, refilled + diff)
  {
    var f := WindowUpdate(0, diff);
    forall id: StreamId
      ensures Emitted(u + [f], id) == RefilledFor(store, id) + if id == 0 then refilled + diff else 0
    {
      EmittedAppend(u, f, id);
      assert Emitted(u, id) == RefilledFor(store, id) + if id == 0 then refilled else 0;
      hide Emitted, RefilledFor;
    }
    hide Emitted, RefilledFor;
  }

  lemma WriteUnrelated(c: Connection, f: Frame)
    requires !f.WindowUpdate?
    ensures Unrelated(c, Write(c, f))
  {
    UpdatesAppend(c.writer.log, f);
    hide Updates;
  }

  lemma RequestsRefills(c: Connection, cmd: HttpCommand)
    requires AllRefilled(c) && DoRequest(c, cmd).Ok?
    ensures AllRefilled(DoRequest(c, cmd).value)
  {
    hide SendRequest, NextId, Updates;
    var c1 := NewStream(c, cmd);
    var v := ViewOf(c1, |c.store|);
    SendRequestQuiet(v, cmd, c.serverFrameSize);
    var v' := SendRequest(v, cmd, c.serverFrameSize).value;
    var c' := DoRequest(c, cmd).value;
    assert c'.store == c.store + [v'.s];
    assert StreamRefilled(v'.s) && v'.s.hist.refilled == 0;
    hide AllRefilled, DoRequest;
    assert Unrelated(c, c'.(store := c.store));
    AppendRefills(c, c', v'.s);
  }

  lemma TakesRefills(c: Connection, cmd: HttpCommand, id: StreamId)
    requires AllRefilled(c) && id in c.cache && c.cache[id] < |c.store|
    ensures AllRefilled(TakeFromCache(c, cmd, id))
  {
    hide Updates, AllRefilled, Finalize;
    var h := c.cache[id];
    var v := Associate(ViewOf(c, h), cmd).0;
    AssociateIsQuiet(ViewOf(c, h), cmd);
    QuietUpdates(ViewOf(c, h), v);
    assert StreamRefilled(c.store[h]) by { StoreRefilled(c, h); }
    PutRefills(c, h, v);
    UnrelatedRefills(Put(c, h, v), TakeFromCache(c, cmd, id));
  }

  lemma StoreRefilled(c: Connection, h: nat)
    requires AllRefilled(c) && h < |c.store|
    ensures StreamRefilled(c.store[h]) && c.initialReceiveWindow == INITIAL_WINDOW
  {
  }

  lemma CreatesRefills(c: Connection, id: StreamId)
    requires AllRefilled(c)
    ensures AllRefilled(GetOrCreate(c, id))
  {
    if id !in c.streams {
      var s := New(id, None, [], c.initialSendWindow, c.initialReceiveWindow);
      assert StreamRefilled(s) && s.hist.refilled == 0;
      hide AllRefilled, Updates, New;
      AppendRefills(c, AddStream(c, s), s);
    }
  }

  lemma DrainsRefills(c: Connection, id: StreamId)
    requires AllRefilled(c) && DrainOne(c, id).Ok?
    ensures AllRefilled(DrainOne(c, id).value)
  {
    if Known(c, id) {
      var v := ViewOf(c, c.streams[id]);
      StoreRefilled(c, c.streams[id]);
      hide AllRefilled, Updates, ProcessPending;
      DrainQuiet(v);
      var v1 := ProcessPending(v).value;
      DrainOneIs(c, id, v1);
      hide DrainOne;
      assert Quiet(v, Silenced(v, v1));
      QuietUpdates(v, Silenced(v, v1));
      PutRefills(c, c.streams[id], Silenced(v, v1));
    }
  }

  lemma DeliversRefills(c: Connection, id: StreamId, f: Frame)
    requires Sound(c) && AllRefilled(c) && Small(f) && Known(c, id) && ReceiveOn(c, c.streams[id], f).Ok?
    ensures AllRefilled(ReceiveOn(c, c.streams[id], f).value)
  {
    Lookup(c, id);
    StoreRefilled(c, c.streams[id]);
    hide AllRefilled, Updates, ReceiveFrame, Sound, SL.Valid, StreamRefilled, Updated;
    var v := ViewOf(c, c.streams[id]);
    ReceiveRefills(v, f);
    PutRefills(c, c.streams[id], ReceiveFrame(v, f).value);
  }

  lemma RefusesRefills(c: Connection, id: StreamId)
    requires AllRefilled(c) && Known(c, id) && CloseWithError(ViewOf(c, c.streams[id]), REFUSED_STREAM).Ok?
    ensures AllRefilled(Put(c, c.streams[id], CloseWithError(ViewOf(c, c.streams[id]), REFUSED_STREAM).value))
  {
    StoreRefilled(c, c.streams[id]);
    hide AllRefilled, Updates, CloseWithError, StreamRefilled, Updated;
    var v := ViewOf(c, c.streams[id]);
    CloseQuiet(v, REFUSED_STREAM);
    QuietUpdates(v, CloseWithError(v, REFUSED_STREAM).value);
    PutRefills(c, c.streams[id], CloseWithError(v, REFUSED_STREAM).value);
  }

  lemma PlainRefills(c: Connection, a: Action)
    requires AllRefilled(c)
    requires a.Fails? || a.Counts? || a.Caches? || a.Credits? || a.Configures? || a.Pings? || a.Pongs? || a.Stops?
    ensures Act(c, a).Ok? && AllRefilled(Act(c, a).value)
  {
    hide AllRefilled, Updates;
    match a {
      case Configures(settings, ack) => WriteUnrelated(ApplySettings(c, settings), Settings(0, true, map[]));
      case Pings(cmd) => WriteUnrelated(c, Ping(0, c.nextPingId, false));
      case Pongs(payload, ack) => WriteUnrelated(c, Ping(0, payload, true));
      case _ =>
    }
    UnrelatedRefills(c, Act(c, a).value);
  }

  lemma ActRefills(c: Connection, a: Action)
    requires Sound(c) && AllRefilled(c) && Act(c, a).Ok?
    requires a.Delivers? ==> Small(a.frame)
    requires a.Accounts? ==> a.size < MAX_PAYLOAD
    ensures AllRefilled(Act(c, a).value)
  {
    hide AllRefilled, Sound, ReceiveOn, CloseWithError, DrainOne, DoRequest, TakeFromCache, GetOrCreate,
        AccountConnectionData;
    match a {
      case Delivers(id, f) => if Known(c, id) { DeliversRefills(c, id, f); }
      case Refuses(id) => if Known(c, id) { RefusesRefills(c, id); }
      case Drains(id) => DrainsRefills(c, id);
      case Creates(id) => CreatesRefills(c, id);
      case Requests(cmd) => RequestsRefills(c, cmd);
      case Takes(cmd, id) => if id in c.cache && c.cache[id] < |c.store| { TakesRefills(c, cmd, id); }
      case Accounts(size) => AccountsRefills(c, size);
      case _ => PlainRefills(c, a);
    }
  }

  lemma {:induction false} ActsRefill(c: Connection, e: Event, acts: seq<Action>)
    requires Sound(c) && AllRefilled(c) && AllBelong(e, acts) && ActAll(c, acts).Ok?
    requires e.Received? ==> Small(e.frame)
    ensures AllRefilled(ActAll(c, acts).value) && Sound(ActAll(c, acts).value)
    decreases acts
  {
    hide Act, Sound, AllRefilled;
    if acts != [] {
      var before, last := acts[..|acts| - 1], acts[|acts| - 1];
      ActsRefill(c, e, before);
      assert Belongs(e, last);
      ActKeeps(ActAll(c, before).value, last);
      ActRefills(ActAll(c, before).value, last);
    }
  }

  lemma InitiallyRefilled()
    ensures AllRefilled(NewConnection())
  {
    UpdatesAppend([], Settings(0, false, map[]));
    assert [] + [Settings(0, false, map[])] == [Settings(0, false, map[])];
    assert Updates([]) == [];
    hide Updates;
    assert forall id: StreamId :: Emitted([], id) == 0 && RefilledFor([], id) == 0;
    hide Emitted, RefilledFor;
  }

  /**
   Receive windows: while DATA payloads are as short as the wire format makes them, at least one frame and at most the
   initial window is left to the connection and to every stream, and all they received is accounted for by the
   increments in the WINDOW_UPDATE frames sent, each of which is legal.
   */
  lemma {:induction false} WindowsRefilled(states: seq<Connection>, inputs: seq<Input>, k: nat)
    requires IsRun(states, inputs) && k < |states|
    requires forall n :: 0 <= n < |inputs| && inputs[n].event.Received? ==> Small(inputs[n].event.frame)
    ensures AllRefilled(states[k])
  {
    hide IsRun, AllRefilled, Step, ActAll, Sound, Valid, Legal, WellFormed, NewConnection;
    RunShape(states, inputs);
    if k == 0 {
      InitiallyRefilled();
    } else {
      var c, i := states[k - 1], inputs[k - 1];
      WindowsRefilled(states, inputs, k - 1);
      RunStep(states, inputs, k);
      var acts := StepActs(c, i);
      ActsRefill(c, i.event, acts);
    }
  }
}
