/** When MustBeIn panics, and the exact condition under which it never does. */
module CrashTheorems {
  import opened Wrappers
  import opened Frames
  import opened StreamState
  import opened StreamSpec
  import opened ConnectionSpec
  import opened Runs
  import opened Visits
  import SL = StreamLemmas

  /**
   `f` closes a stream while DATA frames wait on it: it is RST_STREAM, or the stream refuses it, or its header block is
   cut short. All of it can be read off the connection before the frame is handled.
   */
  predicate ResetsWaiting(c: Connection, f: Frame) {
    && f.GetStreamId() != 0
    && (f.PushPromise? ==> PromiseIsHandled(c, f))
    && TargetOf(f) in c.streams
    && c.streams[TargetOf(f)] < |c.store|
    && var s := c.store[c.streams[TargetOf(f)]];
       s.pending != [] && SL.Resets(s.state, f)
  }

  lemma GetOrCreateStrands(c: Connection, id: StreamId)
    requires Sound(c)
    ensures NoneStranded(GetOrCreate(c, id)) == NoneStranded(c)
  {
    var c' := GetOrCreate(c, id);
    if id !in c.streams {
      assert forall h :: 0 <= h < |c.store| ==> c'.store[h] == c.store[h];
    }
    hide Sound;
  }

  lemma ReceiveOnStrands(c: Connection, id: StreamId, f: Frame)
    requires Sound(c) && NoneStranded(c) && id in c.streams && c.streams[id] < |c.store|
    ensures ReceiveOn(c, c.streams[id], f).Ok?
    ensures var s := c.store[c.streams[id]];
            && (NoneStranded(ReceiveOn(c, c.streams[id], f).value) <==> !(s.pending != [] && SL.Resets(s.state, f)))
            && (f.PushPromise? && s.pending != [] ==>
                SL.Stranded(ReceiveOn(c, c.streams[id], f).value.store[c.streams[id]]))
  {
    hide Sound, ReceiveFrame, SL.Valid;
    var h := c.streams[id];
    Lookup(c, id);
    SL.ReceiveFrameStrands(ViewOf(c, h), f);
    IdleIsEmpty(c, id);
    assert f.PushPromise? && c.store[h].pending != [] ==> SL.Resets(c.store[h].state, f);
    hide SL.Resets;
    var c' := ReceiveOn(c, h, f).value;
    assert c'.store[h] == ReceiveFrame(ViewOf(c, h), f).value.s;
    assert forall k :: 0 <= k < |c.store| && k != h ==> c'.store[k] == c.store[k];
  }

  /** One frame for a stream: queues are left behind exactly by a reset of a stream on which frames wait. */
  lemma FrameStrands(c: Connection, f: Frame)
    requires Sound(c) && NoneStranded(c) && f.GetStreamId() != 0 && !f.PushPromise?
    ensures HandleForStream(c, f).Ok?
    ensures NoneStranded(HandleForStream(c, f).value) <==> !ResetsWaiting(c, f)
  {
    var id := f.GetStreamId();
    HandleForStreamKeeps(c, f);
    assert !WakesStrandedTarget(c, f) by { if id in c.streams { Lookup(c, id); } }
    Routing(c, f);
    BeforeReceiveAdvances(c, f);
    var c1 := BeforeReceive(c, f);
    AdvancesIsSound(c, c1);
    BeforeReceiveStrands(c, f);
    ReceiveOnStrands(c1, id, f);
    Lookup(c1, id);
    hide HandleForStream, ReceiveOn, BeforeReceive, SL.Resets, Sound, SL.Valid;
  }

  lemma AccountingStrands(c: Connection, f: Frame)
    requires Sound(c)
    ensures var c0 := if f.Data? then AccountConnectionData(c, |f.frame.data|) else c;
            Sound(c0) && c0.store == c.store && c0.streams == c.streams
  {
    if f.Data? {
      AccountConnectionDataKeeps(c, |f.frame.data|);
      BookkeepingAdvances(c, AccountConnectionData(c, |f.frame.data|));
      AdvancesIsSound(c, AccountConnectionData(c, |f.frame.data|));
    }
    hide Sound;
  }

  lemma IdleIsEmpty(c: Connection, id: StreamId)
    requires Sound(c) && NoneStranded(c) && id in c.streams && c.streams[id] < |c.store|
    ensures c.store[c.streams[id]].state == Idle ==> c.store[c.streams[id]].pending == []
  {
    Lookup(c, id);
    var s := c.store[c.streams[id]];
    hide Sound;
    if s.pending != [] {
      SL.HeadMayBeSent(s);
    }
    hide SL.Valid;
  }

  lemma BeforeReceiveStrands(c: Connection, f: Frame)
    requires Sound(c) && NoneStranded(c) && f.GetStreamId() != 0 && !f.PushPromise?
    ensures var c1, id := BeforeReceive(c, f), f.GetStreamId();
            && NoneStranded(c1) && id in c1.streams && c1.streams[id] < |c1.store|
            && var s := c1.store[c1.streams[id]];
               && (ResetsWaiting(c, f) <==> s.pending != [] && SL.Resets(s.state, f))
               && (s.state == Idle ==> s.pending == [])
  {
    hide Sound, SL.Resets, SL.Stranded, AccountConnectionData, Advances, GetOrCreate, NoneStranded;
    var id := f.GetStreamId();
    var c0 := if f.Data? then AccountConnectionData(c, |f.frame.data|) else c;
    AccountingStrands(c, f);
    var c1 := BeforeReceive(c, f);
    assert NoneStranded(c0) by { SameStoreStrands(c, c0); }
    GetOrCreateStrands(c0, id);
    GetOrCreateTarget(c0, id);
    IdleIsEmpty(c1, id);
  }

  lemma SameStoreStrands(c: Connection, c': Connection)
    requires NoneStranded(c) && c'.store == c.store
    ensures NoneStranded(c')
  {
  }

  lemma GetOrCreateTarget(c: Connection, id: StreamId)
    requires Sound(c)
    ensures var c1 := GetOrCreate(c, id);
            && Sound(c1) && id in c1.streams && c1.streams[id] < |c1.store|
            && (id in c.streams ==> c1 == c)
            && (id !in c.streams ==> c1.store[c1.streams[id]].pending == [])
  {
    GetOrCreateAdvances(c, id);
    AdvancesIsSound(c, GetOrCreate(c, id));
    hide StreamSound, Advances;
  }

  lemma PromiseStrands(c: Connection, f: Frame)
    requires Sound(c) && NoneStranded(c) && f.GetStreamId() != 0 && f.PushPromise?
    ensures HandlePushPromise(c, f).Ok?
    ensures NoneStranded(HandlePushPromise(c, f).value) <==> !ResetsWaiting(c, f)
  {
    if f.streamId in c.streams {
      Lookup(c, f.streamId);
    }
    hide ReceiveOn, GetOrCreate, CloseWithError, AfterPromise, SL.Resets, Sound, SL.Stranded, IsGet;
    if PromiseIsHandled(c, f) {
      var c1, c2 := PromiseTaken(c, f);
      hide HandlePushPromise;
      PromiseReset(c, f);
      GetOrCreateStrands(c, f.promisedStreamId);
      ReceiveOnStrands(c1, f.promisedStreamId, f);
      hide NoneStranded;
      ClosingPromiseStrands(c1, c2, f);
    }
  }

  lemma PromiseReset(c: Connection, f: Frame)
    requires Sound(c) && f.GetStreamId() != 0 && PromiseIsHandled(c, f)
    ensures var c1, id := GetOrCreate(c, f.promisedStreamId), f.promisedStreamId;
            && id in c1.streams && c1.streams[id] < |c1.store|
            && (ResetsWaiting(c, f) <==>
                c1.store[c1.streams[id]].pending != [] && SL.Resets(c1.store[c1.streams[id]].state, f))
  {
    hide SL.Resets, StreamSound;
  }

  /** Refusing or caching the promised stream leaves no more behind than receiving the promise did. */
  lemma ClosingPromiseStrands(c1: Connection, c: Connection, f: Frame)
    requires Sound(c) && f.PushPromise? && f.promisedStreamId in c.streams && c.streams[f.promisedStreamId] < |c.store|
    requires Sound(c1) && NoneStranded(c1) && c1.streams == c.streams && c.streams[f.promisedStreamId] < |c1.store|
    requires ReceiveOn(c1, c1.streams[f.promisedStreamId], f) == Ok(c)
    ensures AfterPromise(c, f).Ok? && (NoneStranded(AfterPromise(c, f).value) <==> NoneStranded(c))
  {
    var id := f.promisedStreamId;
    var h := c.streams[id];
    Lookup(c, id);
    ReceiveOnStrands(c1, id, f);
    SL.CloseWithErrorKeeps(ViewOf(c, h), REFUSED_STREAM);
    ReceivedPromisePending(c1, c, f);
    hide CloseWithError, Sound, SL.Valid, IsGet, SL.Keeps, ReceiveOn, SL.Resets;
    if !IsGet(f.headers) {
      var s := CloseWithError(ViewOf(c, h), REFUSED_STREAM).value.s;
      assert SL.Stranded(s) == SL.Stranded(c.store[h]);
      StrandedPut(c, h, s, AfterPromise(c, f).value);
    }
  }

  lemma StrandedPut(c: Connection, h: nat, s: Stream, c': Connection)
    requires h < |c.store| && c'.store == c.store[h := s] && SL.Stranded(s) == SL.Stranded(c.store[h])
    ensures NoneStranded(c') == NoneStranded(c)
  {
    assert forall k :: 0 <= k < |c.store| ==> SL.Stranded(c'.store[k]) == SL.Stranded(c.store[k]);
  }

  lemma ReceivedPromisePending(c1: Connection, c: Connection, f: Frame)
    requires Sound(c1) && NoneStranded(c1) && f.PushPromise? && f.promisedStreamId in c1.streams
    requires c1.streams[f.promisedStreamId] < |c1.store|
    requires ReceiveOn(c1, c1.streams[f.promisedStreamId], f) == Ok(c)
    ensures var s := c.store[c1.streams[f.promisedStreamId]]; s.pending == [] || SL.Stranded(s)
  {
    var id := f.promisedStreamId;
    var h := c1.streams[id];
    ReceiveOnStrands(c1, id, f);
    Lookup(c1, id);
    var v := ViewOf(c1, h);
    PromisePending(v, f);
    hide ReceiveFrame, Sound, SL.Valid;
  }

  /** Receiving a promise leaves the queue alone. */
  lemma PromisePending(v: View, f: Frame)
    requires SL.Valid(v.s) && f.PushPromise? && ReceiveFrame(v, f).Ok?
    ensures ReceiveFrame(v, f).value.s.pending == v.s.pending
  {
    SL.CloseWithErrorKeeps(v, STREAM_CLOSED);
    if Incoming(v.s.state, f).Some? {
      SL.IncomingValid(v.s, f);
      SL.DispatchKeeps(v.(s := SetStates(v.s, Incoming(v.s.state, f).value)), f);
    }
    hide CloseWithError, Dispatch, SL.Valid, SL.Keeps;
  }

  /** The event resets a stream on which DATA frames wait. */
  predicate StrandsQueue(c: Connection, i: Input) {
    i.event.Received? && ResetsWaiting(c, i.event.frame)
  }

  /**
   Closed streams keep empty queues through a step exactly when the step does not reset a stream that has frames
   waiting.
   */
  lemma StepStrands(c: Connection, i: Input)
    requires Valid(c) && Legal(c, i) && NoneStranded(c) && Step(c, i).Ok?
    ensures NoneStranded(Step(c, i).value) <==> !StrandsQueue(c, i)
  {
    hide HandleForConnection, HandlePushPromise, ExecuteHttp, Sound, AllSettled, SL.Stranded, SL.Resets;
    match i.event {
      case Received(f) =>
        if f.GetStreamId() == 0 {
          HandleForConnectionKeeps(c, f, i.order);
        } else if f.PushPromise? {
          PromiseStrands(c, f);
        } else {
          hide HandleForStream;
          FrameStrands(c, f);
        }
      case Http(cmd) => ExecuteHttpKeeps(c, cmd, i.order);
      case PingCommand(id) => SameStoreStrands(c, ExecutePing(c, id));
      case Monitoring =>
      case Shutdown => SameStoreStrands(c, c.(isShutdown := true));
    }
  }

  /** While closed streams have empty queues no event makes MustBeIn panic. */
  lemma StepDoesNotPanic(c: Connection, i: Input)
    requires Valid(c) && Legal(c, i) && NoneStranded(c)
    ensures Step(c, i) != Crash(IllegalStreamState)
  {
    hide HandleForConnection, HandleForStream, ExecuteHttp, Sound, AllSettled, SL.Stranded;
    match i.event {
      case Received(f) =>
        if f.GetStreamId() == 0 {
          HandleForConnectionKeeps(c, f, i.order);
        } else {
          HandleForStreamKeeps(c, f);
          assert !WakesStrandedTarget(c, f);
        }
      case Http(cmd) => ExecuteHttpKeeps(c, cmd, i.order);
      case _ =>
    }
  }

  lemma {:induction false} RunStrandsNothing(states: seq<Connection>, inputs: seq<Input>, k: nat)
    requires IsRun(states, inputs) && k < |states|
    requires forall j :: 0 <= j < |inputs| ==> !StrandsQueue(states[j], inputs[j])
    ensures NoneStranded(states[k])
  {
    hide IsRun, Step, Valid, Sound, Legal, StrandsQueue, SL.Stranded, NewConnection;
    if k == 0 {
      RunShape(states, inputs);
      NothingStranded();
    } else {
      RunStrandsNothing(states, inputs, k - 1);
      RunStep(states, inputs, k);
      StepStrands(states[k - 1], inputs[k - 1]);
    }
  }

  lemma NothingStranded()
    ensures NoneStranded(NewConnection())
  {
  }

  /**
   No illegal-state crash: a run in which no stream is reset while DATA frames wait on it never panics at its next
   event, whatever that event is and in whatever order maps are visited.
   */
  lemma NoIllegalState(states: seq<Connection>, inputs: seq<Input>, next: Input)
    requires IsRun(states, inputs) && Legal(states[|inputs|], next) && WellFormed(states[|inputs|])
    requires forall j :: 0 <= j < |inputs| ==> !StrandsQueue(states[j], inputs[j])
    ensures Step(states[|inputs|], next) != Crash(IllegalStreamState)
  {
    RunKeeps(states, inputs, |inputs|);
    RunStrandsNothing(states, inputs, |inputs|);
    StepDoesNotPanic(states[|inputs|], next);
    hide Step, IsRun, Valid, NoneStranded, StrandsQueue;
  }

  /**
   For the credit of one stream the condition is exact: the client panics if and only if the credit wakes what a reset
   left.
   */
  lemma StreamCreditPanics(c: Connection, i: Input)
    requires Valid(c) && i.event.Received? && i.event.frame.GetStreamId() != 0
    ensures Step(c, i).Crash? <==> WakesStrandedTarget(c, i.event.frame)
    ensures Step(c, i).Crash? ==> Step(c, i) == Crash(IllegalStreamState)
  {
    HandleForStreamKeeps(c, i.event.frame);
    hide HandleForStream, WakesStrandedTarget, Sound, AllSettled;
  }

  /** Draining one stream makes no other stream a threat, and leaves none itself. */
  lemma DrainOneWakesNothing(c: Connection, id': StreamId, id: StreamId)
    requires Sound(c) && DrainOne(c, id').Ok? && DrainsStranded(DrainOne(c, id').value, id)
    ensures DrainsStranded(c, id)
  {
    hide Sound, DrainOne, DrainsStranded, Grows, SettledAt, NoneStranded;
    DrainOneKeeps(c, id');
    if id' !in c.streams {
      DrainsNothing(c, id');
    } else if id == id' {
      SettledDoesNotFit(DrainOne(c, id').value, id);
    } else {
      DrainedElsewhere(c, id', id);
    }
  }

  lemma DrainsNothing(c: Connection, id: StreamId)
    requires id !in c.streams
    ensures DrainOne(c, id) == Ok(c)
  {
  }

  lemma DrainedElsewhere(c: Connection, id': StreamId, id: StreamId)
    requires Sound(c) && id' in c.streams && id != id' && DrainOne(c, id').Ok?
    requires DrainsStranded(DrainOne(c, id').value, id)
    ensures DrainsStranded(c, id)
  {
    hide Sound, SL.Valid, ProcessPending, SL.Keeps, StreamSound, SL.Stranded;
    Lookup(c, id');
    var v := ViewOf(c, c.streams[id']);
    SL.ProcessPendingKeeps(v);
    assert ProcessPending(v).Ok?;
    var v1 := ProcessPending(v).value;
    assert DrainOne(c, id').value == Put(c, c.streams[id'], Silenced(v, v1));
    hide DrainOne;
    ShrinksWindow(v, v1);
    if id in c.streams {
      Lookup(c, id);
    }
  }

  lemma SettledDoesNotFit(c: Connection, id: StreamId)
    requires id in c.streams && SettledAt(c, id)
    ensures !DrainsStranded(c, id)
  {
  }

  lemma ShrinksWindow(v: View, v': View)
    requires SL.Keeps(v, v')
    ensures v'.w.sendWindow <= v.w.sendWindow
  {
    hide SL.Valid, SL.Settled, SL.Bytes;
  }

  lemma {:induction false} DrainAllWakesNothing(c: Connection, order: seq<StreamId>, id: StreamId)
    requires Sound(c) && DrainAll(c, order).Ok? && DrainsStranded(DrainAll(c, order).value, id)
    ensures DrainsStranded(c, id)
    decreases order
  {
    hide Sound, DrainOne, DrainsStranded, Grows, SettledAt;
    if order != [] {
      var before, last := order[..|order| - 1], order[|order| - 1];
      DrainAllKeeps(c, before);
      DrainOneWakesNothing(DrainAll(c, before).value, last, id);
      DrainAllWakesNothing(c, before, id);
    }
  }

  /** A drain that panics does so on a stream that was a threat before the first stream was visited. */
  lemma {:induction false} DrainAllNeedsStranded(c: Connection, order: seq<StreamId>) returns (id: StreamId)
    requires Sound(c) && DrainAll(c, order).Crash?
    ensures DrainsStranded(c, id)
    decreases order
  {
    hide Sound, DrainOne, DrainsStranded, Grows, SettledAt;
    assert order != [];
    var before, last := order[..|order| - 1], order[|order| - 1];
    DrainAllKeeps(c, before);
    if DrainAll(c, before).Crash? {
      id := DrainAllNeedsStranded(c, before);
    } else {
      id := last;
      DrainOneKeeps(DrainAll(c, before).value, last);
      DrainAllWakesNothing(c, before, last);
    }
  }

  /** Whoever visits such a stream first panics. */
  lemma StrandedFirst(c: Connection, id: StreamId) returns (order: seq<StreamId>)
    requires Sound(c) && DrainsStranded(c, id)
    ensures IsOrder(order, c.streams.Keys) && DrainAll(c, order) == Crash(IllegalStreamState)
  {
    hide Sound, DrainAll, DrainOne, Grows, SettledAt, SL.Stranded, NoneStranded, IsOrder;
    DrainOneKeeps(c, id);
    var all := c.streams.Keys;
    assert id in all;
    hide DrainsStranded;
    var rest := Enumerate(all - {id});
    OnlyVisit(c, id);
    DrainAllStops(c, [id], rest);
    OrderJoins([id], rest, {id}, all - {id});
    assert {id} + (all - {id}) == all;
    order := [id] + rest;
  }

  lemma OnlyVisit(c: Connection, id: StreamId)
    ensures DrainAll(c, [id]) == DrainOne(c, id) && IsOrder([id], {id})
  {
    assert [id][..0] == [];
    assert DrainAll(c, []) == Ok(c);
    hide DrainOne;
  }

  /**
   For the credit of the connection the condition is exact as well, on the state before: some visiting order of the
   streams makes the client panic if and only if the credit wakes what a reset left on one of them.
   */
  lemma ConnectionCreditPanics(c: Connection, increment: u32)
    requires Sound(c) && WellFormed(c)
    ensures (exists order: seq<StreamId> :: IsOrder(order, c.streams.Keys) && CreditStep(c, increment, order).Crash?)
            <==> exists id: StreamId :: DrainsStranded(AddConnectionCredit(c, increment), id)
    ensures forall order: seq<StreamId> :: CreditStep(c, increment, order).Crash? ==>
              CreditStep(c, increment, order) == Crash(IllegalStreamState)
  {
    var c1 := AddConnectionCredit(c, increment);
    CreditSound(c, increment);
    hide Sound, DrainAll, DrainsStranded, IsOrder, Grows;
    forall order: seq<StreamId> | CreditStep(c, increment, order).Crash?
      ensures CreditStep(c, increment, order) == Crash(IllegalStreamState)
      ensures exists id: StreamId :: DrainsStranded(c1, id)
    {
      DrainAllKeeps(c1, order);
      var id := DrainAllNeedsStranded(c1, order);
    }
    forall id: StreamId | DrainsStranded(c1, id)
      ensures exists order: seq<StreamId> :: IsOrder(order, c.streams.Keys) && CreditStep(c, increment, order).Crash?
    {
      var order := StrandedFirst(c1, id);
      assert CreditStep(c, increment, order).Crash?;
    }
  }

  /** The step in which the connection is given credit and the streams are drained in the given order. */
  function CreditStep(c: Connection, increment: u32, order: seq<StreamId>): (r: Outcome<Connection>)
    requires WellFormed(c)
    ensures r == DrainAll(AddConnectionCredit(c, increment), order)
  {
    hide DrainAll;
    Step(c, Input(Received(WindowUpdate(0, increment)), order))
  }

  lemma CreditSound(c: Connection, increment: u32)
    requires Sound(c)
    ensures Sound(AddConnectionCredit(c, increment))
  {
    hide StreamSound;
  }

  const MAX_INCREMENT: u32 := 0x7FFF_FFFF

  /** Credit that cannot be used yet is kept. */
  lemma CreditWaits(v: View, f: Frame)
    requires SL.Stranded(v.s) && f.WindowUpdate? && !Fits(SL.Credited(v, f), |v.s.pending[0].data|)
    ensures ReceiveFrame(v, f).Ok?
    ensures var v' := ReceiveFrame(v, f).value;
            && v'.w == v.w && v'.s.state == v.s.state && v'.s.pending == v.s.pending
            && v'.s.sendWindow == v.s.sendWindow + f.increment
  {
    assert ProcessPending(SL.Credited(v.(s := SetStates(v.s, [])), f)) ==
        Ok(SL.Credited(v.(s := SetStates(v.s, [])), f));
  }

  /** The stream a frame of the map is for receives it, and the connection waits with it. */
  lemma StreamStep(c: Connection, id: StreamId, f: Frame)
    requires WellFormed(c) && id != 0 && f.WindowUpdate? && f.streamId == id && id in c.streams
    ensures Step(c, Input(Received(f), [])) == ReceiveOn(c, c.streams[id], f)
  {
    hide ReceiveOn;
  }

  lemma ReceivedOn(c: Connection, h: nat, f: Frame, v: View)
    requires h < |c.store| && ReceiveFrame(ViewOf(c, h), f) == Ok(v)
    ensures ReceiveOn(c, h, f) == Ok(Put(c, h, v))
  {
    hide ReceiveFrame;
  }

  /** Frames wait on the closed stream `id`, and the windows may grow by so much that the first of them fits. */
  predicate LeftBehind(c: Connection, id: StreamId, streamCredit: nat, connectionCredit: nat) {
    && id in c.streams && c.streams[id] < |c.store|
    && var s := c.store[c.streams[id]];
       && SL.Stranded(s) && |s.pending[0].data| < s.sendWindow + streamCredit
       && |s.pending[0].data| < c.writer.sendWindow + connectionCredit
  }

  /** The client panics at the first event, or goes on and panics at the second. */
  ghost predicate PanicsAtLast(c: Connection, first: Input, second: Input)
    requires WellFormed(c)
  {
    match Step(c, first)
    case Crash(kind) => kind == IllegalStreamState
    case Ok(c1) => WellFormed(c1) && Legal(c1, second) && Step(c1, second) == Crash(IllegalStreamState)
  }

  /**
   A reset that leaves frames behind is never harmless: credit for the stream, or that and then credit for the
   connection, makes the client panic, if one legal increment each suffices for the first frame that was left behind.
   */
  lemma StrandedCanPanic(c: Connection, id: StreamId) returns (first: Input, second: Input)
    requires Valid(c) && WellFormed(c) && id != 0 && LeftBehind(c, id, MAX_INCREMENT, MAX_INCREMENT)
    ensures Legal(c, first) && PanicsAtLast(c, first, second)
  {
    hide Step, Legal, WellFormed, Sound, Valid, IsOrder, LeftBehind, WakesStrandedTarget, CreditStep;
    var f := WindowUpdate(id, MAX_INCREMENT);
    first, second := Input(Received(f), []), Input(Received(f), []);
    StreamCreditPanics(c, first);
    AnyOrder(c, f);
    if !WakesStrandedTarget(c, f) {
      var c1 := CreditIsKept(c, id);
      SoundIsWellFormed(c1);
      var order := CreditReaches(c1, id);
      second := Input(Received(WindowUpdate(0, MAX_INCREMENT)), order);
      CreditStepIs(c1, MAX_INCREMENT, order);
    }
  }

  lemma AnyOrder(c: Connection, f: Frame)
    requires f.GetStreamId() != 0
    ensures Legal(c, Input(Received(f), []))
  {
  }

  lemma CreditStepIs(c: Connection, increment: u32, order: seq<StreamId>)
    requires WellFormed(c) && IsOrder(order, c.streams.Keys)
    ensures var i := Input(Received(WindowUpdate(0, increment)), order);
            Legal(c, i) && Step(c, i) == CreditStep(c, increment, order)
  {
    hide DrainAll, AddConnectionCredit, IsOrder;
  }

  lemma CreditIsKept(c: Connection, id: StreamId) returns (c1: Connection)
    requires Valid(c) && WellFormed(c) && id != 0 && LeftBehind(c, id, MAX_INCREMENT, MAX_INCREMENT)
    requires !WakesStrandedTarget(c, WindowUpdate(id, MAX_INCREMENT))
    ensures Step(c, Input(Received(WindowUpdate(id, MAX_INCREMENT)), [])) == Ok(c1)
    ensures Sound(c1) && LeftBehind(c1, id, 0, MAX_INCREMENT)
  {
    hide Step, ReceiveOn, ReceiveFrame, WellFormed, Sound, AllSettled;
    var f := WindowUpdate(id, MAX_INCREMENT);
    var h := c.streams[id];
    StreamStep(c, id, f);
    CreditWaits(ViewOf(c, h), f);
    var v := ReceiveFrame(ViewOf(c, h), f).value;
    ReceivedOn(c, h, f, v);
    StepKeeps(c, Input(Received(f), []));
    c1 := Put(c, h, v);
  }

  lemma SoundIsWellFormed(c: Connection)
    requires Sound(c)
    ensures WellFormed(c)
  {
  }

  lemma CreditReaches(c: Connection, id: StreamId) returns (order: seq<StreamId>)
    requires Sound(c) && WellFormed(c) && LeftBehind(c, id, 0, MAX_INCREMENT)
    ensures IsOrder(order, c.streams.Keys) && CreditStep(c, MAX_INCREMENT, order) == Crash(IllegalStreamState)
  {
    hide Sound, DrainAll, WellFormed, IsOrder;
    var c1 := AddConnectionCredit(c, MAX_INCREMENT);
    CreditSound(c, MAX_INCREMENT);
    order := StrandedFirst(c1, id);
  }
}
