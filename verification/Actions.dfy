/**
 Every step is a sequence of small actions. An invariant that each action keeps is kept by every step, so the theorems
 about completion, receiving, ids, the push cache and pings argue action by action.
 */
module Actions {
  import opened Wrappers
  import opened Frames
  import opened StreamState
  import opened StreamSpec
  import opened ConnectionSpec
  import opened Runs
  import SL = StreamLemmas

  datatype Action =
    | Delivers(id: StreamId, frame: Frame)                      // the stream receives a frame
    | Refuses(id: StreamId)                                     // a promise that is not a GET is closed
    | Drains(id: StreamId)                                      // the connection-level drain visits the stream
    | Creates(id: StreamId)                                     // getOrCreateStream
    | Requests(command: HttpCommand)                            // doRequest
    | Takes(command: HttpCommand, id: StreamId)                 // a GET answered from the push cache
    | Fails(command: HttpCommand, result: CommandResult)        // a command completed without a stream
    | Counts(command: HttpCommand)
    | Caches(id: StreamId)
    | Credits(increment: u32)
    | Accounts(size: nat)
    | Configures(settings: map<Setting, u32>, ack: bool)
    | Pings(ping: nat)
    | Pongs(payload: u64, ack: bool)
    | Stops

  predicate Known(c: Connection, id: StreamId) {
    id in c.streams && c.streams[id] < |c.store|
  }

  /** The state after an action; an action on a stream that is not there, or not yet promised, does nothing. */
  function Act(c: Connection, a: Action): Outcome<Connection> {
    match a
    case Delivers(id, f) => if Known(c, id) then ReceiveOn(c, c.streams[id], f) else Ok(c)
    case Refuses(id) =>
      if Known(c, id) then
        var v :- CloseWithError(ViewOf(c, c.streams[id]), REFUSED_STREAM);
        Ok(Put(c, c.streams[id], v))
      else Ok(c)
    case Drains(id) => DrainOne(c, id)
    case Creates(id) => Ok(GetOrCreate(c, id))
    case Requests(cmd) => DoRequest(c, cmd)
    case Takes(cmd, id) => Ok(if id in c.cache && c.cache[id] < |c.store| then TakeFromCache(c, cmd, id) else c)
    case Fails(cmd, result) => Ok(Complete(c, cmd, result))
    case Counts(cmd) => Ok(CountCommand(c, cmd))
    case Caches(id) =>
      Ok(if Known(c, id) && c.store[c.streams[id]].state != Idle
         then c.(cache := c.cache[id := c.streams[id]], hist := c.hist.(cached := c.hist.cached + multiset{id}))
         else c)
    case Credits(increment) => Ok(AddConnectionCredit(c, increment))
    case Accounts(size) => Ok(AccountConnectionData(c, size))
    case Configures(settings, ack) => Ok(HandleSettings(c, settings, ack))
    case Pings(cmd) => Ok(ExecutePing(c, cmd))
    case Pongs(payload, ack) => Ok(HandlePing(c, payload, ack))
    case Stops => Ok(c.(isShutdown := true))
  }

  function ActAll(c: Connection, acts: seq<Action>): Outcome<Connection> {
    if acts == [] then Ok(c)
    else
      var c1 :- ActAll(c, acts[..|acts| - 1]);
      Act(c1, acts[|acts| - 1])
  }

  /** The actions that an event can give rise to. */
  predicate Belongs(e: Event, a: Action) {
    match a
    case Delivers(id, f) => e == Received(f) && f.GetStreamId() != 0 && id == TargetOf(f)
    case Refuses(id) => e.Received? && e.frame.GetStreamId() != 0 && e.frame.PushPromise? && id == TargetOf(e.frame)
    case Drains(_) => DrainsAll(e)
    case Creates(id) => e.Received? && e.frame.GetStreamId() != 0 && id == TargetOf(e.frame)
    case Requests(cmd) => e == Http(cmd)
    case Takes(cmd, _) => e == Http(cmd) && MethodOf(cmd) == Get
    case Fails(cmd, result) => e == Http(cmd) && result in {MethodMissing, MethodNotSupported}
    case Counts(cmd) => e == Http(cmd)
    case Caches(id) => e.Received? && e.frame.PushPromise? && id == e.frame.promisedStreamId
    case Credits(_) => DrainsAll(e)
    case Accounts(size) => e.Received? && e.frame.Data? && size == |e.frame.frame.data|
    case Configures(settings, ack) => e == Received(Settings(0, ack, settings))
    case Pings(cmd) => e == PingCommand(cmd)
    case Pongs(payload, ack) => e == Received(Ping(0, payload, ack))
    case Stops => e.Shutdown? || (e.Received? && e.frame.GoAway? && e.frame.streamId == 0)
  }

  ghost predicate AllBelong(e: Event, acts: seq<Action>) {
    forall k :: 0 <= k < |acts| ==> Belongs(e, acts[k])
  }

  lemma ActOne(c: Connection, a: Action)
    ensures ActAll(c, [a]) == Act(c, a)
  {
    assert [a][..0] == [];
    assert ActAll(c, []) == Ok(c);
    hide Act;
  }

  lemma ActNext(c: Connection, acts: seq<Action>, a: Action)
    ensures ActAll(c, acts + [a]) == match ActAll(c, acts) case Ok(c1) => Act(c1, a) case Crash(k) => Crash(k)
  {
    assert (acts + [a])[..|acts|] == acts;
    hide Act;
  }

  function DrainActions(order: seq<StreamId>): seq<Action> {
    seq(|order|, k requires 0 <= k < |order| => Drains(order[k]))
  }

  lemma {:induction false} DrainAllActs(c: Connection, increment: u32, order: seq<StreamId>)
    ensures ActAll(c, [Credits(increment)] + DrainActions(order)) == DrainAll(AddConnectionCredit(c, increment), order)
    decreases order
  {
    hide DrainOne, AddConnectionCredit;
    var first := [Credits(increment)];
    if order == [] {
      assert first + DrainActions(order) == first;
      ActOne(c, Credits(increment));
    } else {
      var n := |order| - 1;
      DrainAllActs(c, increment, order[..n]);
      assert first + DrainActions(order) == (first + DrainActions(order[..n])) + [Drains(order[n])];
      ActNext(c, first + DrainActions(order[..n]), Drains(order[n]));
    }
  }

  lemma TwoActs(c: Connection, a: Action, b: Action, c1: Connection)
    requires Act(c, a) == Ok(c1)
    ensures ActAll(c, [a, b]) == Act(c1, b)
  {
    assert [a, b] == [a] + [b];
    ActOne(c, a);
    ActNext(c, [a], b);
    hide Act;
  }

  lemma ThreeActs(c: Connection, a: Action, b: Action, d: Action, c1: Connection, c2: Connection)
    requires Act(c, a) == Ok(c1) && Act(c1, b) == Ok(c2)
    ensures ActAll(c, [a, b, d]) == Act(c2, d)
  {
    assert [a, b, d] == [a, b] + [d];
    TwoActs(c, a, b, c1);
    ActNext(c, [a, b], d);
    hide Act;
  }

  /** The last action of a promise. */
  function Decides(f: Frame): Action
    requires f.PushPromise?
  {
    if IsGet(f.headers) then Caches(f.promisedStreamId) else Refuses(f.promisedStreamId)
  }

  lemma DecidesActs(c: Connection, f: Frame)
    requires f.PushPromise? && Known(c, f.promisedStreamId) && c.store[c.streams[f.promisedStreamId]].state != Idle
    ensures Act(c, Decides(f)) == AfterPromise(c, f)
  {
    hide CloseWithError, IsGet;
  }

  lemma PromiseActs(c: Connection, f: Frame) returns (acts: seq<Action>)
    requires Sound(c) && f.PushPromise? && f.GetStreamId() != 0
    ensures ActAll(c, acts) == HandlePushPromise(c, f) && AllBelong(Received(f), acts)
  {
    if f.streamId in c.streams {
      Lookup(c, f.streamId);
    }
    hide AfterPromise, GetOrCreate, ReceiveOn, Sound, ActAll;
    if PromiseIsHandled(c, f) {
      var c1, c2 := PromiseTaken(c, f);
      PromisedIsNotIdle(c1, c2, f);
      acts := HandledPromiseActs(c, f, c1, c2);
      hide HandlePushPromise;
    } else {
      acts := [];
      ActNone(c);
    }
  }

  lemma ActNone(c: Connection)
    ensures ActAll(c, []) == Ok(c)
  {
  }

  lemma PromisedIsNotIdle(c1: Connection, c2: Connection, f: Frame)
    requires Sound(c1) && f.PushPromise? && Known(c1, f.promisedStreamId)
    requires ReceiveOn(c1, c1.streams[f.promisedStreamId], f) == Ok(c2)
    ensures c2.store[c1.streams[f.promisedStreamId]].state != Idle
  {
    var h := c1.streams[f.promisedStreamId];
    Lookup(c1, f.promisedStreamId);
    PromiseLeavesIdle(ViewOf(c1, h), f);
    hide ReceiveFrame, Sound, SL.Valid;
  }

  lemma PromiseLeavesIdle(v: View, f: Frame)
    requires SL.Valid(v.s) && f.PushPromise? && ReceiveFrame(v, f).Ok?
    ensures ReceiveFrame(v, f).value.s.state != Idle
  {
    SL.CloseWithErrorKeeps(v, STREAM_CLOSED);
    if Incoming(v.s.state, f).Some? {
      SL.IncomingValid(v.s, f);
      SL.DispatchKeeps(v.(s := SetStates(v.s, Incoming(v.s.state, f).value)), f);
    }
    hide CloseWithError, Dispatch, SL.Valid, SL.Keeps;
  }

  lemma HandledPromiseActs(c: Connection, f: Frame, c1: Connection, c2: Connection) returns (acts: seq<Action>)
    requires f.PushPromise? && f.GetStreamId() != 0
    requires c1 == GetOrCreate(c, f.promisedStreamId) && Known(c1, f.promisedStreamId)
    requires ReceiveOn(c1, c1.streams[f.promisedStreamId], f) == Ok(c2) && Known(c2, f.promisedStreamId)
    requires c2.store[c2.streams[f.promisedStreamId]].state != Idle
    ensures ActAll(c, acts) == AfterPromise(c2, f) && AllBelong(Received(f), acts)
  {
    hide AfterPromise, GetOrCreate, ReceiveOn, ActAll, IsGet;
    var id := f.promisedStreamId;
    acts := [Creates(id), Delivers(id, f), Decides(f)];
    DecidesActs(c2, f);
    assert Belongs(Received(f), Decides(f));
    hide Decides;
    ThreeActs(c, Creates(id), Delivers(id, f), Decides(f), c1, c2);
  }

  lemma FrameActs(c: Connection, f: Frame) returns (acts: seq<Action>)
    requires Sound(c) && !f.PushPromise? && f.GetStreamId() != 0
    ensures ActAll(c, acts) == HandleForStream(c, f) && AllBelong(Received(f), acts)
  {
    var id := f.GetStreamId();
    Routing(c, f);
    hide HandleForStream, ReceiveOn, GetOrCreate, AccountConnectionData, ActAll, Sound;
    if f.Data? {
      acts := DataActs(c, f);
    } else {
      var c1 := BeforeReceive(c, f);
      if f.RstStream? && c1.store[c1.streams[id]].state == Idle {
        acts := [Creates(id)];
        ActOne(c, Creates(id));
      } else {
        acts := [Creates(id), Delivers(id, f)];
        TwoActs(c, Creates(id), Delivers(id, f), c1);
      }
    }
  }

  lemma DataActs(c: Connection, f: Frame) returns (acts: seq<Action>)
    requires f.Data? && f.GetStreamId() != 0 && Known(BeforeReceive(c, f), f.GetStreamId())
    ensures var c1 := BeforeReceive(c, f); ActAll(c, acts) == ReceiveOn(c1, c1.streams[f.GetStreamId()], f)
    ensures AllBelong(Received(f), acts)
  {
    hide ReceiveOn, GetOrCreate, AccountConnectionData, ActAll;
    var id, size := f.GetStreamId(), |f.frame.data|;
    acts := [Accounts(size), Creates(id), Delivers(id, f)];
    ThreeActs(c, Accounts(size), Creates(id), Delivers(id, f), AccountConnectionData(c, size), BeforeReceive(c, f));
  }

  lemma ConnectionFrameActs(c: Connection, f: Frame, order: seq<StreamId>) returns (acts: seq<Action>)
    requires f.GetStreamId() == 0
    ensures ActAll(c, acts) == HandleForConnection(c, f, order) && AllBelong(Received(f), acts)
  {
    hide HandleSettings, HandlePing, DrainAll, AddConnectionCredit;
    match f {
      case Settings(_, ack, settings) =>
        acts := [Configures(settings, ack)];
        ActOne(c, Configures(settings, ack));
      case Ping(_, payload, ack) =>
        acts := [Pongs(payload, ack)];
        ActOne(c, Pongs(payload, ack));
      case WindowUpdate(_, increment) =>
        acts := [Credits(increment)] + DrainActions(order);
        DrainAllActs(c, increment, order);
      case GoAway(_, _, _) =>
        acts := [Stops];
        ActOne(c, Stops);
      case _ =>
        acts := [];
        assert ActAll(c, []) == Ok(c);
    }
    hide ActAll;
  }

  lemma HttpActs(c: Connection, cmd: HttpCommand, order: seq<StreamId>) returns (acts: seq<Action>)
    requires Sound(c)
    ensures ActAll(c, acts) == ExecuteHttp(c, cmd, order) && AllBelong(Http(cmd), acts)
  {
    hide Sound, CountCommand, ByMethod, ActAll;
    var c0 := CountCommand(c, cmd);
    CountCommandKeeps(c, cmd);
    SoundIsWellFormed(c0);
    var a := HttpAct(c0, cmd, order);
    acts := [Counts(cmd), a];
    CountingIs(c, cmd);
    hide Act;
    TwoActs(c, Counts(cmd), a, c0);
  }

  lemma CountingIs(c: Connection, cmd: HttpCommand)
    ensures Act(c, Counts(cmd)) == Ok(CountCommand(c, cmd))
  {
  }

  lemma HttpAct(c: Connection, cmd: HttpCommand, order: seq<StreamId>) returns (a: Action)
    requires WellFormed(c)
    ensures Act(c, a) == ByMethod(c, cmd, order) && Belongs(Http(cmd), a) && !a.Counts?
  {
    hide DoRequest, TakeFromCache, Complete, FindHeader, FindPromised;
    match MethodOf(cmd) {
      case Get =>
        match FindPromised(c, FindHeader(":path", cmd.headers), order) {
          case None => a := Requests(cmd);
          case Some(id) => a := Takes(cmd, id);
        }
      case PutOrPost => a := Requests(cmd);
      case Missing => a := Fails(cmd, MethodMissing);
      case Unsupported => a := Fails(cmd, MethodNotSupported);
    }
    hide MethodOf;
  }

  /** A step is its actions. */
  lemma StepActs(c: Connection, i: Input) returns (acts: seq<Action>)
    requires Sound(c)
    ensures ActAll(c, acts) == Step(c, i) && AllBelong(i.event, acts)
  {
    SoundIsWellFormed(c);
    hide HandleForStream, HandlePushPromise, HandleForConnection, ExecuteHttp, ExecutePing, Sound;
    match i.event {
      case Received(f) =>
        if f.GetStreamId() == 0 {
          acts := ConnectionFrameActs(c, f, i.order);
        } else if f.PushPromise? {
          acts := PromiseActs(c, f);
          PromiseRouting(c, f);
        } else {
          acts := FrameActs(c, f);
        }
      case Http(cmd) => acts := HttpActs(c, cmd, i.order);
      case PingCommand(id) =>
        acts := [Pings(id)];
        ActOne(c, Pings(id));
      case Monitoring => acts := [];
      case Shutdown =>
        acts := [Stops];
        ActOne(c, Stops);
    }
  }

  lemma PromiseRouting(c: Connection, f: Frame)
    requires WellFormed(c) && f.PushPromise?
    ensures HandleForStream(c, f) == HandlePushPromise(c, f)
  {
    hide HandlePushPromise;
  }

  /** Every action keeps references, streams, uploads and credit in order. */
  lemma ActKeeps(c: Connection, a: Action)
    requires Sound(c)
    ensures Act(c, a).Ok? ==> Sound(Act(c, a).value) && Grows(c, Act(c, a).value)
  {
    hide ReceiveOn, CloseWithError, DrainOne, GetOrCreate, DoRequest, Complete, CountCommand, AccountConnectionData,
         HandleSettings, ExecutePing, HandlePing, Sound, Grows, AddConnectionCredit, TakeFromCache;
    if Act(c, a).Ok? && Act(c, a) != Ok(c) {
      ActAdvances(c, a);
    } else {
      GrowsReflexive(c);
    }
  }

  lemma ActAdvances(c: Connection, a: Action)
    requires Sound(c) && Act(c, a).Ok? && Act(c, a) != Ok(c)
    ensures Sound(Act(c, a).value) && Grows(c, Act(c, a).value)
  {
    hide ReceiveOn, CloseWithError, DrainOne, GetOrCreate, DoRequest, Complete, CountCommand, AccountConnectionData,
         HandleSettings, ExecutePing, HandlePing, Sound, Grows, Associate, AllSettled;
    match a {
      case Delivers(id, f) => ReceiveOnKeeps(c, id, f);
      case Refuses(id) => CloseOnKeeps(c, id, REFUSED_STREAM);
      case Drains(id) => DrainOneKeeps(c, id);
      case Creates(id) => GetOrCreateKeeps(c, id);
      case Requests(cmd) => DoRequestKeeps(c, cmd);
      case Takes(cmd, id) =>
        assert WellFormed(c) by { SoundIsWellFormed(c); }
        TakeFromCacheKeeps(c, cmd, id);
      case Fails(cmd, result) => CompleteKeeps(c, cmd, result);
      case Counts(cmd) => CountCommandKeeps(c, cmd);
      case Caches(id) => CachingAdvances(c, id);
      case Credits(increment) => CreditSound(c, increment);
      case Accounts(size) =>
        AccountConnectionDataKeeps(c, size);
        BookkeepingAdvances(c, AccountConnectionData(c, size));
      case Configures(settings, ack) =>
        HandleSettingsKeeps(c, settings, ack);
        BookkeepingAdvances(c, HandleSettings(c, settings, ack));
      case Pings(cmd) => PingKeeps(c, cmd); BookkeepingAdvances(c, ExecutePing(c, cmd));
      case Pongs(payload, ack) => HandlePingKeeps(c, payload, ack); BookkeepingAdvances(c, HandlePing(c, payload, ack));
      case Stops => BookkeepingAdvances(c, c.(isShutdown := true));
    }
  }

  lemma PingKeeps(c: Connection, cmd: nat)
    ensures Bookkeeping(c, ExecutePing(c, cmd))
  {
  }

  lemma SoundIsWellFormed(c: Connection)
    requires Sound(c)
    ensures WellFormed(c)
  {
  }

  lemma CreditSound(c: Connection, increment: u32)
    requires Sound(c)
    ensures Sound(AddConnectionCredit(c, increment)) && Grows(c, AddConnectionCredit(c, increment))
  {
    hide StreamSound;
  }

  lemma DrainOneIs(c: Connection, id: StreamId, v1: View)
    requires Known(c, id) && ProcessPending(ViewOf(c, c.streams[id])) == Ok(v1)
    ensures DrainOne(c, id) == Ok(Put(c, c.streams[id], Silenced(ViewOf(c, c.streams[id]), v1)))
  {
    hide ProcessPending;
  }

  lemma DrainNeedsProcess(c: Connection, id: StreamId)
    requires Known(c, id) && DrainOne(c, id).Ok?
    ensures ProcessPending(ViewOf(c, c.streams[id])).Ok?
  {
    hide ProcessPending;
  }
}
