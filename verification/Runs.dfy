/** Events, steps and runs of the event loop, and the invariant that every run keeps. */
module Runs {
  import opened Wrappers
  import opened Frames
  import opened StreamState
  import opened StreamSpec
  import opened ConnectionSpec
  import opened RequestLemmas
  import SL = StreamLemmas

  datatype Event =
    | Received(frame: Frame)
    | Http(command: HttpCommand)
    | PingCommand(id: nat)
    | Monitoring
    | Shutdown

  /** An event, with the order in which Go happens to range over a map while handling it. */
  datatype Input = Input(event: Event, order: seq<StreamId>)

  ghost predicate IsOrder(order: seq<StreamId>, ids: set<StreamId>) {
    && (forall i, j :: 0 <= i < j < |order| ==> order[i] != order[j])
    && (forall id :: id in ids <==> id in order)
  }

  predicate DrainsAll(e: Event) {
    e.Received? && e.frame.WindowUpdate? && e.frame.streamId == 0
  }

  /** The order visits the whole map that is ranged over: the streams for a drain, the push cache for a GET. */
  ghost predicate Legal(c: Connection, i: Input) {
    && (DrainsAll(i.event) ==> IsOrder(i.order, c.streams.Keys))
    && (i.event.Http? ==> IsOrder(i.order, c.cache.Keys))
  }

  function Step(c: Connection, i: Input): Outcome<Connection>
    requires WellFormed(c)
  {
    match i.event
    case Received(f) => HandleIncoming(c, f, i.order)
    case Http(cmd) => ExecuteHttp(c, cmd, i.order)
    case PingCommand(id) => Ok(ExecutePing(c, id))
    case Monitoring => Ok(c)
    case Shutdown => Ok(c.(isShutdown := true))
  }

  // ---------------------------------------------------------------- invariant

  function TotalWritten(store: seq<Stream>): nat {
    if store == [] then 0
    else TotalWritten(store[..|store| - 1]) + SL.Bytes(store[|store| - 1].hist.written)
  }

  lemma {:induction false} TotalWrittenUpdate(store: seq<Stream>, h: nat, s: Stream)
    requires h < |store|
    ensures TotalWritten(store[h := s]) ==
            TotalWritten(store) - SL.Bytes(store[h].hist.written) + SL.Bytes(s.hist.written)
    decreases store
  {
    var k := |store| - 1;
    if h == k {
      assert store[h := s][..k] == store[..k];
    } else {
      assert store[h := s][..k] == store[..k][h := s];
      TotalWrittenUpdate(store[..k], h, s);
    }
  }

  lemma TotalWrittenAppend(store: seq<Stream>, s: Stream)
    ensures TotalWritten(store + [s]) == TotalWritten(store) + SL.Bytes(s.hist.written)
  {
    assert (store + [s])[..|store|] == store;
  }

  ghost predicate StreamSound(s: Stream) {
    SL.Valid(s) && Uploaded(s)
  }

  /** References, streams, uploads and the credit of the connection. */
  ghost predicate Sound(c: Connection) {
    && WellFormed(c)
    && (forall h :: 0 <= h < |c.store| ==> StreamSound(c.store[h]))
    && TotalWritten(c.store) + c.writer.sendWindow == INITIAL_WINDOW + c.hist.credit
    && c.writer.sendWindow >= 1
  }

  /** No stream of the map waits for a wake-up that has already come. */
  ghost predicate AllSettled(c: Connection) {
    forall id <- c.streams :: SettledAt(c, id)
  }

  ghost predicate SettledAt(c: Connection, id: StreamId)
    requires id in c.streams
  {
    c.streams[id] < |c.store| && SL.Settled(c.store[c.streams[id]], c.writer.sendWindow)
  }

  ghost predicate Valid(c: Connection) {
    Sound(c) && AllSettled(c)
  }

  /** A stream object in a later state of the run: same id, longer history, command never exchanged. */
  ghost predicate StreamGrows(s: Stream, s': Stream) {
    && s'.id == s.id
    && s'.initialSendWindow == s.initialSendWindow
    && s'.initialReceiveWindow == s.initialReceiveWindow
    && SL.Extends(s.hist, s'.hist)
    && (s.command.Some? ==> s'.command == s.command)
  }

  ghost predicate Grows(c: Connection, c': Connection) {
    && |c.store| <= |c'.store|
    && (forall h :: 0 <= h < |c.store| ==> StreamGrows(c.store[h], c'.store[h]))
    && c.writer.log <= c'.writer.log
    && c.writer.completions <= c'.writer.completions
    && c.hist.issuedIds <= c'.hist.issuedIds
    && c.hist.commands <= c'.hist.commands
    && c.hist.credit <= c'.hist.credit
  }

  lemma GrowsReflexive(c: Connection)
    ensures Grows(c, c)
  {
  }

  lemma GrowsTransitive(a: Connection, b: Connection, c: Connection)
    requires Grows(a, b) && Grows(b, c)
    ensures Grows(a, c)
  {
  }

  // ---------------------------------------------------------------- parts of a step

  lemma PutSound(c: Connection, h: nat, v: View)
    requires Sound(c) && h < |c.store| && StreamSound(v.s) && SL.Conserves(ViewOf(c, h), v)
    ensures Sound(Put(c, h, v))
  {
    hide StreamSound, SL.Bytes, SL.Extends;
    assert TotalWritten(c.store[h := v.s]) ==
           TotalWritten(c.store) - SL.Bytes(c.store[h].hist.written) + SL.Bytes(v.s.hist.written) by {
      TotalWrittenUpdate(c.store, h, v.s);
    }
    hide TotalWritten;
  }

  lemma PutGrows(c: Connection, h: nat, v: View)
    requires h < |c.store| && SL.Conserves(ViewOf(c, h), v)
    ensures Grows(c, Put(c, h, v))
  {
    hide SL.Bytes;
  }

  /** One stream evolves; the others stay settled, since the connection window only shrinks. */
  lemma PutKeeps(c: Connection, h: nat, v: View)
    requires Sound(c) && h < |c.store| && StreamSound(v.s) && SL.Conserves(ViewOf(c, h), v)
    ensures Sound(Put(c, h, v)) && Grows(c, Put(c, h, v))
    ensures AllSettled(c) && SL.Settled(v.s, v.w.sendWindow) ==> AllSettled(Put(c, h, v))
  {
    PutSound(c, h, v);
    PutGrows(c, h, v);
    hide Grows, StreamSound, SL.Extends, SL.Bytes;
    var c' := Put(c, h, v);
    if AllSettled(c) && SL.Settled(v.s, v.w.sendWindow) {
      forall id <- c'.streams ensures SettledAt(c', id) {
        assert SettledAt(c, id);
      }
    }
  }

  lemma AddStreamKeeps(c: Connection, s: Stream)
    requires Sound(c) && SL.Valid(s) && Uploaded(s) && s.hist.written == []
    ensures Sound(AddStream(c, s)) && Grows(c, AddStream(c, s))
    ensures AllSettled(c) && SL.Settled(s, c.writer.sendWindow) ==> AllSettled(AddStream(c, s))
  {
    hide SL.Valid, Uploaded, SL.Settled;
    var c' := AddStream(c, s);
    assert TotalWritten(c'.store) == TotalWritten(c.store) by { TotalWrittenAppend(c.store, s); }
    assert c'.writer == c.writer;
    hide TotalWritten, SL.Bytes;
    forall h | 0 <= h < |c'.store| ensures StreamSound(c'.store[h]) {
      assert h < |c.store| ==> c'.store[h] == c.store[h];
    }
    if AllSettled(c) && SL.Settled(s, c.writer.sendWindow) {
      forall id <- c'.streams ensures SettledAt(c', id) {
        if id != s.id {
          assert SettledAt(c, id);
        }
      }
    }
  }

  lemma GetOrCreateKeeps(c: Connection, id: StreamId)
    requires Sound(c)
    ensures var c' := GetOrCreate(c, id);
            && id in c'.streams && Sound(c') && Grows(c, c') && (AllSettled(c) ==> AllSettled(c'))
            && c'.writer == c.writer
  {
    var s := New(id, None, [], c.initialSendWindow, c.initialReceiveWindow);
    NewStreamValid(id, None, [], c.initialSendWindow, c.initialReceiveWindow, c.writer);
    assert Uploaded(s) && s.hist.written == [] && s.id == id;
    hide SL.Valid, Sound, Grows, AllSettled, New, Uploaded, SL.Settled;
    if id in c.streams {
      GrowsReflexive(c);
    } else {
      AddStreamKeeps(c, s);
    }
  }

  lemma PutKept(c: Connection, id: StreamId, v: View)
    requires Sound(c) && id in c.streams && SL.Keeps(ViewOf(c, c.streams[id]), v)
    ensures var c' := Put(c, c.streams[id], v);
            Sound(c') && Grows(c, c') && (AllSettled(c) ==> AllSettled(c'))
  {
    var h := c.streams[id];
    assert StreamSound(c.store[h]);
    assert Uploaded(v.s) by { hide SL.Valid, Covered, IsCutOf; }
    if AllSettled(c) {
      assert SettledAt(c, id);
    }
    PutKeeps(c, h, v);
    hide Sound, Grows, AllSettled, Uploaded, SL.Valid;
  }

  /** A frame for a stream crashes the client exactly when it wakes a queue that a reset left behind. */
  predicate WakesStranded(v: View, f: Frame) {
    f.WindowUpdate? && SL.Stranded(v.s) && Fits(SL.Credited(v, f), |v.s.pending[0].data|)
  }

  lemma ReceiveOnKeeps(c: Connection, id: StreamId, f: Frame)
    requires Sound(c) && id in c.streams
    ensures var h := c.streams[id];
            && (ReceiveOn(c, h, f).Crash? <==> WakesStranded(ViewOf(c, h), f))
            && (ReceiveOn(c, h, f).Crash? ==> ReceiveOn(c, h, f).kind == IllegalStreamState)
            && (ReceiveOn(c, h, f).Ok? ==>
                  var c' := ReceiveOn(c, h, f).value;
                  && Sound(c') && Grows(c, c') && (AllSettled(c) ==> AllSettled(c'))
                  && c' == c.(store := c'.store, writer := c'.writer))
  {
    var v := ViewOf(c, c.streams[id]);
    assert StreamSound(c.store[c.streams[id]]);
    SL.ReceiveFrameKeeps(v, f);
    hide ReceiveFrame, Sound, Grows, AllSettled, Uploaded, SL.Valid;
    if ReceiveFrame(v, f).Ok? {
      PutKept(c, id, ReceiveFrame(v, f).value);
    }
  }

  lemma CloseOnKeeps(c: Connection, id: StreamId, code: ErrorCode)
    requires Sound(c) && id in c.streams
    ensures var h := c.streams[id];
            && CloseWithError(ViewOf(c, h), code).Ok?
            && var c' := Put(c, h, CloseWithError(ViewOf(c, h), code).value);
               Sound(c') && Grows(c, c') && (AllSettled(c) ==> AllSettled(c'))
  {
    var v := ViewOf(c, c.streams[id]);
    assert StreamSound(c.store[c.streams[id]]);
    SL.CloseWithErrorKeeps(v, code);
    hide CloseWithError, Sound, Grows, AllSettled, Uploaded, SL.Valid;
    PutKept(c, id, CloseWithError(v, code).value);
  }

  ghost predicate NoneStranded(c: Connection) {
    forall h :: 0 <= h < |c.store| ==> !SL.Stranded(c.store[h])
  }

  /** Draining one stream crashes the client exactly when a reset left frames behind and the first one fits. */
  predicate DrainsStranded(c: Connection, id: StreamId) {
    && id in c.streams && c.streams[id] < |c.store|
    && SL.Stranded(c.store[c.streams[id]])
    && Fits(ViewOf(c, c.streams[id]), |c.store[c.streams[id]].pending[0].data|)
  }

  lemma DrainOneKeeps(c: Connection, id: StreamId)
    requires Sound(c)
    ensures DrainOne(c, id).Crash? <==> DrainsStranded(c, id)
    ensures DrainOne(c, id).Crash? ==> DrainOne(c, id).kind == IllegalStreamState
    ensures DrainOne(c, id).Ok? ==>
              var c' := DrainOne(c, id).value;
              && Sound(c') && Grows(c, c')
              && c'.streams == c.streams
              && (id in c.streams ==> SettledAt(c', id))
              && (forall k <- c.streams :: SettledAt(c, k) ==> SettledAt(c', k))
              && (NoneStranded(c) ==> NoneStranded(c'))
  {
    hide ProcessPending, SL.Valid, SL.Keeps, SL.Conserves, Uploaded, Sound, SL.Settled, StreamSound;
    if id in c.streams {
      Lookup(c, id);
      var h := c.streams[id];
      var v := ViewOf(c, h);
      SL.ProcessPendingKeeps(v);
      if ProcessPending(v).Ok? {
        var v2 := Silenced(v, ProcessPending(v).value);
        SilenceKeeps(v, ProcessPending(v).value);
        assert SL.Stranded(v2.s) == SL.Stranded(ProcessPending(v).value.s);
        assert DrainOne(c, id) == Ok(Put(c, h, v2));
        PutKeeps(c, h, v2);
        PutSettles(c, id, v2);
      }
    }
  }

  lemma Lookup(c: Connection, id: StreamId)
    requires Sound(c) && id in c.streams
    ensures c.streams[id] < |c.store| && c.store[c.streams[id]].id == id
    ensures SL.Valid(c.store[c.streams[id]]) && StreamSound(c.store[c.streams[id]])
  {
  }

  lemma PutSettles(c: Connection, id: StreamId, v: View)
    requires Sound(c) && id in c.streams
    requires SL.Settled(v.s, v.w.sendWindow) && v.w.sendWindow <= c.writer.sendWindow
    ensures var c' := Put(c, c.streams[id], v);
            SettledAt(c', id) && forall k <- c.streams :: SettledAt(c, k) ==> SettledAt(c', k)
  {
    hide SL.Settled, StreamSound;
    var c' := Put(c, c.streams[id], v);
    forall k <- c.streams | SettledAt(c, k) ensures SettledAt(c', k) {
      if k != id {
        assert c'.store[c'.streams[k]] == c.store[c.streams[k]];
        SettledShrinks(c.store[c.streams[k]], c.writer.sendWindow, c'.writer.sendWindow);
      }
    }
  }

  lemma SilenceKeeps(v: View, v1: View)
    requires StreamSound(v.s) && SL.Keeps(v, v1) && SL.Settled(v1.s, v1.w.sendWindow)
    ensures StreamSound(Silenced(v, v1).s) && SL.Conserves(v, Silenced(v, v1)) && v1.w.sendWindow <= v.w.sendWindow
    ensures SL.Settled(Silenced(v, v1).s, Silenced(v, v1).w.sendWindow)
  {
    hide SL.Bytes, SL.Payload, SL.EndsOnlyLast, SL.AllFor, IsCutOf, Covered;
    if v.s.hist.silentClose {
      StaysClosed(v.s, v1.s);
    }
    hide Lifetime, Walk;
  }

  lemma StaysClosed(s: Stream, s': Stream)
    requires SL.Valid(s) && SL.Valid(s') && SL.Extends(s.hist, s'.hist) && s.state == Closed
    ensures s'.state == Closed
  {
    var (p, q) := (s.hist.path, s'.hist.path);
    assert q[|p| - 1] == p[|p| - 1];
    WalkRises(q, |p| - 1, |q| - 1);
  }

  /** The connection-level drain, for every order in which the map may be visited. */
  lemma {:induction false} DrainAllKeeps(c: Connection, order: seq<StreamId>)
    requires Sound(c)
    ensures DrainAll(c, order).Crash? ==> DrainAll(c, order).kind == IllegalStreamState && !NoneStranded(c)
    ensures DrainAll(c, order).Ok? ==>
              var c' := DrainAll(c, order).value;
              && Sound(c') && Grows(c, c')
              && c'.streams == c.streams
              && (forall id <- order :: id in c.streams ==> SettledAt(c', id))
              && (NoneStranded(c) ==> NoneStranded(c'))
    decreases order
  {
    hide Sound, Grows, DrainOne, SettledAt;
    if order == [] {
      GrowsReflexive(c);
    } else {
      var before, id := order[..|order| - 1], order[|order| - 1];
      DrainAllKeeps(c, before);
      if DrainAll(c, before).Ok? {
        var c1 := DrainAll(c, before).value;
        DrainOneKeeps(c1, id);
        if DrainOne(c1, id).Ok? {
          GrowsTransitive(c, c1, DrainOne(c1, id).value);
        }
      }
    }
  }

  ghost predicate Advances(c: Connection, c': Connection) {
    Sound(c') && Grows(c, c') && (AllSettled(c) ==> AllSettled(c'))
  }

  lemma AdvancesTransitive(a: Connection, b: Connection, c: Connection)
    requires Advances(a, b) && Advances(b, c)
    ensures Advances(a, c)
  {
    GrowsTransitive(a, b, c);
    hide Sound, Grows, AllSettled;
  }

  /** A change that leaves streams, references and send windows alone. */
  ghost predicate Bookkeeping(c: Connection, c': Connection) {
    && c'.store == c.store && c'.streams == c.streams && c'.cache == c.cache
    && c'.writer.sendWindow == c.writer.sendWindow && c'.hist.credit == c.hist.credit
    && c.writer.log <= c'.writer.log && c.writer.completions <= c'.writer.completions
    && c.hist.issuedIds <= c'.hist.issuedIds && c.hist.commands <= c'.hist.commands
  }

  lemma BookkeepingAdvances(c: Connection, c': Connection)
    requires Sound(c) && Bookkeeping(c, c')
    ensures Advances(c, c')
  {
    assert forall id <- c.streams :: SettledAt(c, id) == SettledAt(c', id);
    hide StreamSound, SL.Settled;
  }

  lemma HandleSettingsKeeps(c: Connection, settings: map<Setting, u32>, ack: bool)
    ensures Bookkeeping(c, HandleSettings(c, settings, ack))
  {
  }

  lemma HandlePingKeeps(c: Connection, payload: u64, ack: bool)
    ensures Bookkeeping(c, HandlePing(c, payload, ack))
  {
  }

  lemma AccountConnectionDataKeeps(c: Connection, size: nat)
    ensures Bookkeeping(c, AccountConnectionData(c, size))
  {
  }

  lemma HandlePlainFrame(c: Connection, f: Frame)
    requires !f.WindowUpdate?
    ensures HandleForConnection(c, f, []).Ok?
    ensures Bookkeeping(c, HandleForConnection(c, f, []).value)
  {
    hide HandleSettings, HandlePing;
    match f {
      case Settings(_, ack, settings) => HandleSettingsKeeps(c, settings, ack);
      case Ping(_, payload, ack) => HandlePingKeeps(c, payload, ack);
      case _ =>
    }
  }

  /** A connection-level WINDOW_UPDATE: whatever the visiting order, nothing that fits is left waiting afterwards. */
  lemma ConnectionCreditKeeps(c: Connection, increment: u32, order: seq<StreamId>)
    requires Sound(c) && IsOrder(order, c.streams.Keys)
    ensures var r := DrainAll(AddConnectionCredit(c, increment), order);
            && (r.Crash? ==> r.kind == IllegalStreamState && !NoneStranded(c))
            && (r.Ok? ==> Advances(c, r.value) && AllSettled(r.value) && (NoneStranded(c) ==> NoneStranded(r.value)))
  {
    var c1 := AddConnectionCredit(c, increment);
    assert Sound(c1) && Grows(c, c1) by { hide StreamSound; }
    assert NoneStranded(c) == NoneStranded(c1);
    DrainAllKeeps(c1, order);
    hide Sound, Grows, SettledAt, DrainAll, SL.Stranded;
    if DrainAll(c1, order).Ok? {
      var c' := DrainAll(c1, order).value;
      GrowsTransitive(c, c1, c');
      forall id <- c'.streams ensures SettledAt(c', id) {
        assert id in c1.streams.Keys;
      }
    }
  }

  lemma HandleForConnectionKeeps(c: Connection, f: Frame, order: seq<StreamId>)
    requires Sound(c)
    requires f.WindowUpdate? ==> IsOrder(order, c.streams.Keys)
    ensures HandleForConnection(c, f, order).Crash? ==>
              HandleForConnection(c, f, order).kind == IllegalStreamState && !NoneStranded(c)
    ensures HandleForConnection(c, f, order).Ok? ==> Advances(c, HandleForConnection(c, f, order).value)
    ensures HandleForConnection(c, f, order).Ok? && NoneStranded(c) ==>
            NoneStranded(HandleForConnection(c, f, order).value)
  {
    hide Sound, Advances, SL.Stranded, DrainAll;
    if f.WindowUpdate? {
      ConnectionCreditKeeps(c, f.increment, order);
    } else {
      assert HandleForConnection(c, f, order) == HandleForConnection(c, f, []);
      HandlePlainFrame(c, f);
      hide HandleForConnection;
      BookkeepingAdvances(c, HandleForConnection(c, f, order).value);
    }
  }

  lemma CachingAdvances(c: Connection, id: StreamId)
    requires Sound(c) && id in c.streams
    ensures Advances(c,
            c.(cache := c.cache[id := c.streams[id]], hist := c.hist.(cached := c.hist.cached + multiset{id})))
  {
    hide StreamSound, SL.Settled, TotalWritten;
    var c' := c.(cache := c.cache[id := c.streams[id]], hist := c.hist.(cached := c.hist.cached + multiset{id}));
    forall k | k in c.streams && SettledAt(c, k) ensures SettledAt(c', k) {}
  }

  lemma GetOrCreateAdvances(c: Connection, id: StreamId)
    requires Sound(c)
    ensures Advances(c, GetOrCreate(c, id)) && id in GetOrCreate(c, id).streams
  {
    if id in c.streams {
      GrowsReflexive(c);
    } else {
      GetOrCreateKeeps(c, id);
    }
    hide Sound, AllSettled, Grows;
  }

  lemma ReceiveOnAdvances(c: Connection, id: StreamId, f: Frame)
    requires Sound(c) && id in c.streams && !f.WindowUpdate?
    ensures ReceiveOn(c, c.streams[id], f).Ok? && Advances(c, ReceiveOn(c, c.streams[id], f).value)
    ensures ReceiveOn(c, c.streams[id], f).value.streams == c.streams
  {
    ReceiveOnKeeps(c, id, f);
    hide ReceiveOn, Sound, AllSettled, Grows;
  }

  lemma CloseOnAdvances(c: Connection, id: StreamId, code: ErrorCode)
    requires Sound(c) && id in c.streams
    ensures CloseWithError(ViewOf(c, c.streams[id]), code).Ok?
    ensures Advances(c, Put(c, c.streams[id], CloseWithError(ViewOf(c, c.streams[id]), code).value))
  {
    CloseOnKeeps(c, id, code);
    hide CloseWithError, Sound, AllSettled, Grows;
  }

  lemma AdvancesReflexive(c: Connection)
    requires Sound(c)
    ensures Advances(c, c)
  {
    GrowsReflexive(c);
  }

  predicate PromiseIsHandled(c: Connection, f: Frame) {
    && f.PushPromise? && f.streamId in c.streams && c.streams[f.streamId] < |c.store|
    && c.store[c.streams[f.streamId]].state in {Open, HalfClosedLocal}
  }

  lemma AfterPromiseKeeps(c: Connection, f: Frame)
    requires Sound(c) && f.PushPromise? && f.promisedStreamId in c.streams && c.streams[f.promisedStreamId] < |c.store|
    ensures AfterPromise(c, f).Ok? && Advances(c, AfterPromise(c, f).value)
  {
    hide CloseWithError, IsGet, Advances, Sound;
    CloseOnAdvances(c, f.promisedStreamId, REFUSED_STREAM);
    CachingAdvances(c, f.promisedStreamId);
  }

  lemma PromiseSteps(c: Connection, f: Frame)
    requires Sound(c) && f.PushPromise?
    ensures var c1, id := GetOrCreate(c, f.promisedStreamId), f.promisedStreamId;
            && Sound(c1) && id in c1.streams && Advances(c, c1)
            && ReceiveOn(c1, c1.streams[id], f).Ok?
            && var c2 := ReceiveOn(c1, c1.streams[id], f).value;
               && Advances(c1, c2) && Sound(c2) && c2.streams == c1.streams
               && AfterPromise(c2, f).Ok?
               && Advances(c2, AfterPromise(c2, f).value)
  {
    hide ReceiveOn, AfterPromise, GetOrCreate, IsGet;
    var id := f.promisedStreamId;
    var c1 := GetOrCreate(c, id);
    GetOrCreateAdvances(c, id);
    AdvancesIsSound(c, c1);
    ReceiveOnAdvances(c1, id, f);
    var c2 := ReceiveOn(c1, c1.streams[id], f).value;
    AdvancesIsSound(c1, c2);
    hide Advances, StreamSound, TotalWritten;
    AfterPromiseKeeps(c2, f);
  }

  /** A promise that is handled, taken apart. */
  lemma PromiseTaken(c: Connection, f: Frame) returns (c1: Connection, c2: Connection)
    requires Sound(c) && PromiseIsHandled(c, f)
    ensures var id := f.promisedStreamId;
            && c1 == GetOrCreate(c, id) && Sound(c1)
            && id in c1.streams && c1.streams[id] < |c1.store|
            && ReceiveOn(c1, c1.streams[id], f) == Ok(c2) && Sound(c2)
            && id in c2.streams && c2.streams[id] < |c2.store| && c2.streams == c1.streams
            && AfterPromise(c2, f).Ok?
            && HandlePushPromise(c, f) == AfterPromise(c2, f)
  {
    hide ReceiveOn, AfterPromise, GetOrCreate, IsGet, Advances, StreamSound, TotalWritten;
    var id := f.promisedStreamId;
    PromiseSteps(c, f);
    c1 := GetOrCreate(c, id);
    Lookup(c1, id);
    c2 := ReceiveOn(c1, c1.streams[id], f).value;
    Lookup(c2, id);
  }

  lemma HandlePushPromiseKeeps(c: Connection, f: Frame)
    requires Sound(c) && f.PushPromise?
    ensures HandlePushPromise(c, f).Ok?
    ensures Advances(c, HandlePushPromise(c, f).value)
  {
    if f.streamId in c.streams {
      Lookup(c, f.streamId);
    }
    AdvancesReflexive(c);
    hide Advances, StreamSound, TotalWritten, AfterPromise, GetOrCreate, ReceiveOn;
    if PromiseIsHandled(c, f) {
      var c1, c2 := PromiseTaken(c, f);
      PromiseSteps(c, f);
      AdvancesTransitive(c, c1, c2);
      AdvancesTransitive(c, c2, AfterPromise(c2, f).value);
      hide HandlePushPromise;
    }
  }

  lemma AdvancesIsSound(c: Connection, c': Connection)
    requires Advances(c, c')
    ensures Sound(c')
  {
  }

  /** The id of the stream that receives `f`. */
  function TargetOf(f: Frame): StreamId {
    if f.PushPromise? then f.promisedStreamId else f.GetStreamId()
  }

  /** The stream that `f` reaches waits, closed by a reset, for the credit that `f` brings. */
  predicate WakesStrandedTarget(c: Connection, f: Frame) {
    && f.GetStreamId() in c.streams && c.streams[f.GetStreamId()] < |c.store|
    && WakesStranded(ViewOf(c, c.streams[f.GetStreamId()]), f)
  }

  /** The connection just before the stream handles the frame. */
  function BeforeReceive(c: Connection, f: Frame): Connection {
    GetOrCreate(if f.Data? then AccountConnectionData(c, |f.frame.data|) else c, f.GetStreamId())
  }

  lemma NewStreamNeverWakes(c: Connection, f: Frame)
    requires Sound(c)
    ensures WakesStrandedTarget(GetOrCreate(c, f.GetStreamId()), f) <==> WakesStrandedTarget(c, f)
  {
    hide Fits, StreamSound;
  }

  lemma BeforeReceiveAdvances(c: Connection, f: Frame)
    requires Sound(c)
    ensures Advances(c, BeforeReceive(c, f)) && f.GetStreamId() in BeforeReceive(c, f).streams
    ensures WakesStrandedTarget(BeforeReceive(c, f), f) <==> WakesStrandedTarget(c, f)
  {
    assert f.Data? ==> !WakesStrandedTarget(BeforeReceive(c, f), f) && !WakesStrandedTarget(c, f);
    hide Advances, AccountConnectionData, WakesStranded, Bookkeeping;
    var c0 := if f.Data? then AccountConnectionData(c, |f.frame.data|) else c;
    if f.Data? {
      AccountConnectionDataKeeps(c, |f.frame.data|);
      BookkeepingAdvances(c, c0);
    } else {
      AdvancesReflexive(c);
    }
    AdvancesIsSound(c, c0);
    GetOrCreateAdvances(c0, f.GetStreamId());
    AdvancesTransitive(c, c0, BeforeReceive(c, f));
    NewStreamNeverWakes(c0, f);
    hide Sound;
  }

  /** How a frame other than PUSH_PROMISE reaches its stream. */
  lemma Routing(c: Connection, f: Frame)
    requires WellFormed(c) && !f.PushPromise?
    ensures var c1, id := BeforeReceive(c, f), f.GetStreamId();
            && id in c1.streams && c1.streams[id] < |c1.store|
            && HandleForStream(c, f) ==
               if f.RstStream? && c1.store[c1.streams[id]].state == Idle then Ok(c1)
                   else ReceiveOn(c1, c1.streams[id], f)
  {
    hide ReceiveOn, AccountConnectionData;
    AccountingKeepsStreams(c, f);
  }

  lemma AccountingKeepsStreams(c: Connection, f: Frame)
    ensures var c0 := if f.Data? then AccountConnectionData(c, |f.frame.data|) else c;
            c0.store == c.store && c0.streams == c.streams
  {
  }

  lemma HandleForStreamKeeps(c: Connection, f: Frame)
    requires Sound(c)
    ensures HandleForStream(c, f).Crash? <==> WakesStrandedTarget(c, f)
    ensures HandleForStream(c, f).Crash? ==> HandleForStream(c, f).kind == IllegalStreamState
    ensures HandleForStream(c, f).Ok? ==> Advances(c, HandleForStream(c, f).value)
  {
    if f.PushPromise? {
      HandlePushPromiseKeeps(c, f);
      hide HandlePushPromise, Advances, Sound, Fits;
    } else {
      Routing(c, f);
      hide HandleForStream, ReceiveOn, BeforeReceive, Advances, Fits;
      var id := f.GetStreamId();
      var c1 := BeforeReceive(c, f);
      BeforeReceiveAdvances(c, f);
      AdvancesIsSound(c, c1);
      ReceiveOnKeeps(c1, id, f);
      var r := ReceiveOn(c1, c1.streams[id], f);
      if r.Ok? {
        ReceiveOnIsAdvance(c1, id, f);
        AdvancesTransitive(c, c1, r.value);
      }
    }
  }

  lemma ReceiveOnIsAdvance(c: Connection, id: StreamId, f: Frame)
    requires Sound(c) && id in c.streams && ReceiveOn(c, c.streams[id], f).Ok?
    ensures Advances(c, ReceiveOn(c, c.streams[id], f).value)
  {
    ReceiveOnKeeps(c, id, f);
    hide ReceiveOn, Sound, Grows, AllSettled;
  }

  // ---------------------------------------------------------------- requests

  lemma NewStreamKeeps(c: Connection, cmd: HttpCommand)
    requires Sound(c)
    ensures var c1 := NewStream(c, cmd);
            && |c1.store| == |c.store| + 1 && Grows(c, c1) && c1.writer == c.writer && c1.cache == c.cache
            && c1.streams == c.streams[NextId(c.streams.Keys) := |c.store|]
            && c1.store[..|c.store|] == c.store
            && c1.store[|c.store|] ==
                New(NextId(c.streams.Keys), Some(cmd), cmd.body, c.initialSendWindow, c.initialReceiveWindow)
            && c1.hist.credit == c.hist.credit
  {
    hide NextId, Sound;
  }

  /** A request: its stream starts on an arbitrary valid state and the rest is as before. */
  lemma DoRequestKeeps(c: Connection, cmd: HttpCommand)
    requires Sound(c)
    ensures DoRequest(c, cmd).Crash? ==>
              DoRequest(c, cmd).kind != IllegalStreamState && cmd.body != [] && !Cuttable(|cmd.body|, c.serverFrameSize)
    ensures |cmd.body| < UINT32 && cmd.body != [] && !Cuttable(|cmd.body|, c.serverFrameSize) ==>
            DoRequest(c, cmd).Crash?
    ensures DoRequest(c, cmd).Ok? ==>
              Advances(c, DoRequest(c, cmd).value) && (NoneStranded(c) ==> NoneStranded(DoRequest(c, cmd).value))
  {
    var c1, h := NewStream(c, cmd), |c.store|;
    NewStreamKeeps(c, cmd);
    var v := ViewOf(c1, h);
    NewStreamValid(NextId(c.streams.Keys), Some(cmd), cmd.body, c.initialSendWindow, c.initialReceiveWindow, c.writer);
    SendRequestKeeps(v, cmd, c.serverFrameSize);
    hide SendRequest, NewStream, NextId, Cuttable, SL.Valid, Uploaded;
    if SendRequest(v, cmd, c.serverFrameSize).Ok? {
      var v' := SendRequest(v, cmd, c.serverFrameSize).value;
      RequestAdvances(c, c1, v');
      assert forall k :: 0 <= k < h ==> Put(c1, h, v').store[k] == c.store[k];
    }
    hide Sound, Advances;
  }

  /** The upload condition holds once the whole request has been handed over. */
  lemma RequestAdvances(c: Connection, c1: Connection, v: View)
    requires Sound(c) && |c1.store| == |c.store| + 1 && c1.store[..|c.store|] == c.store
    requires Grows(c, c1) && c1.writer == c.writer && c1.cache == c.cache && c1.hist.credit == c.hist.credit
    requires c1.streams == c.streams[c1.store[|c.store|].id := |c.store|]
    requires c1.store[|c.store|].hist.written == []
    requires StreamSound(v.s) && SL.Evolves(ViewOf(c1, |c.store|), v) && SL.Settled(v.s, v.w.sendWindow)
    ensures Advances(c, Put(c1, |c.store|, v))
  {
    hide StreamSound, SL.Settled, SL.Extends;
    var h := |c.store|;
    var c' := Put(c1, h, v);
    assert Grows(c, c') by { PutGrows(c1, h, v); GrowsTransitive(c, c1, c'); hide SL.Evolves; }
    hide Grows;
    assert c'.store == c.store + [v.s];
    assert TotalWritten(c'.store) == TotalWritten(c.store) + SL.Bytes(v.s.hist.written)
        by { TotalWrittenAppend(c.store, v.s); }
    hide TotalWritten;
    assert Sound(c');
    if AllSettled(c) {
      forall id <- c'.streams ensures SettledAt(c', id) {
        if id != v.s.id {
          assert SettledAt(c, id);
          assert c'.store[c'.streams[id]] == c.store[c.streams[id]];
          SettledShrinks(c.store[c.streams[id]], c.writer.sendWindow, c'.writer.sendWindow);
        }
      }
    }
  }

  lemma SettledShrinks(s: Stream, window: int, window': int)
    requires SL.Settled(s, window) && window' <= window
    ensures SL.Settled(s, window')
  {
  }

  lemma AssociateKeeps(v: View, cmd: HttpCommand)
    requires SL.Valid(v.s)
    ensures var v' := Associate(v, cmd).0;
            && SL.Valid(v'.s) && SL.Conserves(v, v') && SL.SubmitsNothing(v, v')
            && v'.s.pending == v.s.pending && v'.s.sendWindow == v.s.sendWindow && v'.w.sendWindow == v.w.sendWindow
            && v'.s.state == v.s.state
  {
  }

  lemma PutAdvances(c: Connection, h: nat, v: View)
    requires Sound(c) && h < |c.store| && StreamSound(v.s) && SL.Conserves(ViewOf(c, h), v)
    requires v.s.pending == c.store[h].pending && v.s.sendWindow == c.store[h].sendWindow
    requires v.w.sendWindow == c.writer.sendWindow
    ensures Advances(c, Put(c, h, v))
  {
    PutSound(c, h, v);
    PutGrows(c, h, v);
    hide SL.Conserves, StreamSound, Grows;
    var c' := Put(c, h, v);
    assert forall k <- c.streams :: SettledAt(c, k) == SettledAt(c', k);
    hide Sound;
  }

  lemma UncachingAdvances(c: Connection, id: StreamId)
    requires Sound(c)
    ensures Advances(c, c.(cache := c.cache - {id}, hist := c.hist.(consumed := c.hist.consumed + multiset{id})))
  {
    var c' := c.(cache := c.cache - {id}, hist := c.hist.(consumed := c.hist.consumed + multiset{id}));
    assert forall k <- c.streams :: SettledAt(c, k) == SettledAt(c', k);
    hide StreamSound, SL.Settled, TotalWritten;
  }

  lemma AssociateAdvances(c: Connection, h: nat, cmd: HttpCommand)
    requires Sound(c) && h < |c.store|
    ensures var c' := Put(c, h, Associate(ViewOf(c, h), cmd).0);
            Sound(c') && Advances(c, c') && (NoneStranded(c) ==> NoneStranded(c'))
  {
    var v := ViewOf(c, h);
    assert StreamSound(c.store[h]);
    var v' := Associate(v, cmd).0;
    AssociateKeeps(v, cmd);
    hide Associate;
    assert StreamSound(v'.s) by { hide SL.Valid; }
    hide StreamSound, SL.Conserves;
    PutAdvances(c, h, v');
    AdvancesIsSound(c, Put(c, h, v'));
    assert SL.Stranded(v'.s) == SL.Stranded(v.s);
    hide Advances, SL.Stranded, Sound;
  }

  lemma TakeFromCacheKeeps(c: Connection, cmd: HttpCommand, id: StreamId)
    requires Sound(c) && id in c.cache
    ensures Advances(c, TakeFromCache(c, cmd, id))
    ensures NoneStranded(c) ==> NoneStranded(TakeFromCache(c, cmd, id))
  {
    var c1 := Put(c, c.cache[id], Associate(ViewOf(c, c.cache[id]), cmd).0);
    AssociateAdvances(c, c.cache[id], cmd);
    var c2 := c1.(cache := c1.cache - {id}, hist := c1.hist.(consumed := c1.hist.consumed + multiset{id}));
    assert TakeFromCache(c, cmd, id) in {c2, Complete(c2, cmd, AlreadyBound)};
    hide Associate, Advances, StreamSound, TakeFromCache, SL.Stranded;
    UncachingAdvances(c1, id);
    AdvancesIsSound(c1, c2);
    AdvancesTransitive(c, c1, c2);
    assert NoneStranded(c2) == NoneStranded(c1);
    hide Sound, NoneStranded;
    CompleteKeeps(c2, cmd, AlreadyBound);
    AdvancesTransitive(c, c2, Complete(c2, cmd, AlreadyBound));
  }

  lemma ExecuteGetKeeps(c: Connection, cmd: HttpCommand, order: seq<StreamId>)
    requires Sound(c)
    ensures ExecuteGet(c, cmd, order).Crash? ==> ExecuteGet(c, cmd, order).kind != IllegalStreamState
    ensures ExecuteGet(c, cmd, order).Ok? ==>
              Advances(c, ExecuteGet(c, cmd, order).value)
                  && (NoneStranded(c) ==> NoneStranded(ExecuteGet(c, cmd, order).value))
  {
    var promised := FindPromised(c, FindHeader(":path", cmd.headers), order);
    match promised {
      case None => DoRequestKeeps(c, cmd);
      case Some(id) =>
        assert ExecuteGet(c, cmd, order) == Ok(TakeFromCache(c, cmd, id));
        TakeFromCacheKeeps(c, cmd, id);
    }
    hide Advances, DoRequest, TakeFromCache, Sound, FindPromised, NoneStranded, Cuttable;
  }

  lemma CompleteKeeps(c: Connection, cmd: HttpCommand, result: CommandResult)
    requires Sound(c)
    ensures Advances(c, Complete(c, cmd, result)) && (NoneStranded(c) ==> NoneStranded(Complete(c, cmd, result)))
  {
    BookkeepingAdvances(c, Complete(c, cmd, result));
    hide Advances, Sound, SL.Stranded;
  }

  lemma ByMethodKeeps(c: Connection, cmd: HttpCommand, order: seq<StreamId>)
    requires Sound(c)
    ensures ByMethod(c, cmd, order).Crash? ==> ByMethod(c, cmd, order).kind != IllegalStreamState
    ensures ByMethod(c, cmd, order).Ok? ==>
              Advances(c, ByMethod(c, cmd, order).value)
                  && (NoneStranded(c) ==> NoneStranded(ByMethod(c, cmd, order).value))
  {
    hide Advances, DoRequest, ExecuteGet, Complete, NoneStranded, Cuttable, MethodOf, StreamSound, TotalWritten;
    DoRequestKeeps(c, cmd);
    ExecuteGetKeeps(c, cmd, order);
    CompleteKeeps(c, cmd, MethodMissing);
    CompleteKeeps(c, cmd, MethodNotSupported);
  }

  lemma CountCommandKeeps(c: Connection, cmd: HttpCommand)
    requires Sound(c)
    ensures Sound(CountCommand(c, cmd)) && Advances(c, CountCommand(c, cmd))
    ensures NoneStranded(CountCommand(c, cmd)) == NoneStranded(c)
  {
    assert Bookkeeping(c, CountCommand(c, cmd));
    BookkeepingAdvances(c, CountCommand(c, cmd));
    AdvancesIsSound(c, CountCommand(c, cmd));
    hide Advances, Sound, SL.Stranded;
  }

  lemma ExecuteHttpKeeps(c: Connection, cmd: HttpCommand, order: seq<StreamId>)
    requires Sound(c)
    ensures ExecuteHttp(c, cmd, order).Crash? ==> ExecuteHttp(c, cmd, order).kind != IllegalStreamState
    ensures ExecuteHttp(c, cmd, order).Ok? ==>
              Advances(c, ExecuteHttp(c, cmd, order).value)
                  && (NoneStranded(c) ==> NoneStranded(ExecuteHttp(c, cmd, order).value))
  {
    hide Advances, StreamSound, TotalWritten, NoneStranded, ByMethod, CountCommand;
    var c0 := CountCommand(c, cmd);
    CountCommandKeeps(c, cmd);
    ByMethodKeeps(c0, cmd, order);
    if ByMethod(c0, cmd, order).Ok? {
      AdvancesTransitive(c, c0, ByMethod(c0, cmd, order).value);
    }
  }

  // ---------------------------------------------------------------- steps and runs

  /** Every step that does not crash keeps the invariant and only extends what has happened. */
  lemma StepKeeps(c: Connection, i: Input)
    requires Valid(c) && Legal(c, i)
    ensures Step(c, i).Ok? ==> Valid(Step(c, i).value) && Grows(c, Step(c, i).value)
  {
    hide HandleForConnection, HandleForStream, ExecuteHttp, Sound, Grows, AllSettled;
    match i.event {
      case Received(f) =>
        HandleForStreamKeeps(c, f);
        if f.GetStreamId() == 0 {
          HandleForConnectionKeeps(c, f, i.order);
        }
      case Http(cmd) => ExecuteHttpKeeps(c, cmd, i.order);
      case PingCommand(id) => BookkeepingAdvances(c, ExecutePing(c, id));
      case Monitoring => AdvancesReflexive(c);
      case Shutdown => BookkeepingAdvances(c, c.(isShutdown := true));
    }
  }

  ghost predicate StepTo(c: Connection, i: Input, c': Connection) {
    WellFormed(c) && Legal(c, i) && Step(c, i) == Ok(c')
  }

  /** The states of a connection from its start on, one more after each event, none of them crashing. */
  ghost predicate IsRun(states: seq<Connection>, inputs: seq<Input>) {
    && |states| == |inputs| + 1
    && states[0] == NewConnection()
    && forall k :: 0 <= k < |inputs| ==> StepTo(states[k], inputs[k], states[k + 1])
  }

  lemma RunBegins(i: Input, c: Connection)
    requires StepTo(NewConnection(), i, c)
    ensures IsRun([NewConnection(), c], [i])
  {
    hide StepTo, NewConnection;
  }

  lemma RunGoesOn(states: seq<Connection>, inputs: seq<Input>, next: Input, c: Connection)
    requires IsRun(states, inputs) && StepTo(states[|inputs|], next, c)
    ensures IsRun(states + [c], inputs + [next])
  {
    hide StepTo, NewConnection;
  }

  lemma RunShape(states: seq<Connection>, inputs: seq<Input>)
    requires IsRun(states, inputs)
    ensures |states| == |inputs| + 1 && states[0] == NewConnection()
  {
  }

  lemma {:induction false} RunKeeps(states: seq<Connection>, inputs: seq<Input>, k: nat)
    requires IsRun(states, inputs) && k < |states|
    ensures Valid(states[k])
  {
    hide Step, Valid, NewConnection;
    if k == 0 {
      InitiallyValid();
    } else {
      RunKeeps(states, inputs, k - 1);
      assert StepTo(states[k - 1], inputs[k - 1], states[k - 1 + 1]);
      StepKeeps(states[k - 1], inputs[k - 1]);
    }
  }

  lemma InitiallyValid()
    ensures Valid(NewConnection())
  {
  }

  lemma RunStream(states: seq<Connection>, inputs: seq<Input>, k: nat, h: nat)
    requires IsRun(states, inputs) && k < |states| && h < |states[k].store|
    ensures SL.Valid(states[k].store[h]) && Uploaded(states[k].store[h])
  {
    RunKeeps(states, inputs, k);
    hide IsRun, SL.Valid, Uploaded, AllSettled;
    assert StreamSound(states[k].store[h]);
  }

  /** Event `k - 1` of a run, on its own. */
  lemma RunStep(states: seq<Connection>, inputs: seq<Input>, k: nat)
    requires IsRun(states, inputs) && 0 < k < |states|
    ensures |states| == |inputs| + 1
    ensures var (c, i) := (states[k - 1], inputs[k - 1]);
            WellFormed(c) && Sound(c) && Valid(c) && Legal(c, i) && Step(c, i) == Ok(states[k])
  {
    hide Step, Sound, AllSettled, Legal, WellFormed, NewConnection;
    assert StepTo(states[k - 1], inputs[k - 1], states[k - 1 + 1]);
    RunKeeps(states, inputs, k - 1);
  }

  lemma {:induction false} RunGrows(states: seq<Connection>, inputs: seq<Input>, j: nat, k: nat)
    requires IsRun(states, inputs) && j <= k < |states|
    ensures Grows(states[j], states[k])
    decreases k - j
  {
    hide IsRun, Step, Grows, Valid, Sound, Legal;
    if j == k {
      GrowsReflexive(states[k]);
    } else {
      RunGrows(states, inputs, j, k - 1);
      RunStep(states, inputs, k);
      StepKeeps(states[k - 1], inputs[k - 1]);
      GrowsTransitive(states[j], states[k - 1], states[k]);
    }
  }
}
