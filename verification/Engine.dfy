/**
 The stream and the connection as the program has them: objects whose methods update their fields step by step. Every
 method is proved to do what the functions of StreamSpec and ConnectionSpec say, panics included.
 */
module Engine {
  import opened Wrappers
  import opened Frames
  import opened StreamState
  import opened EngineLemmas
  import opened Visits
  import R = Runs
  import M = Monitoring
  import S = StreamSpec
  import C = ConnectionSpec

  /** None where a method returns, the reason where it panics. */
  type Panic = Option<CrashKind>

  class Stream {
    const streamId: StreamId
    const out: Connection
    const initialSendWindowSize: int
    const initialReceiveWindowSize: int
    var state: State
    var requestHeaders: seq<HeaderField>
    var responseHeaders: seq<HeaderField>
    var responseBody: seq<byte>
    var err: Option<S.StreamError>
    var cmd: Option<S.HttpCommand>
    var remainingSendWindowSize: int
    var remainingReceiveWindowSize: int
    var pendingDataFrameWrites: seq<DataFrame>
    ghost const handle: nat
    ghost var hist: S.History

    constructor (streamId: StreamId, cmd: Option<S.HttpCommand>,
                 initialSendWindowSize: u32, initialReceiveWindowSize: u32,
                 out: Connection, ghost upload: seq<byte>, ghost handle: nat)
      ensures Model() == S.New(streamId, cmd, upload, initialSendWindowSize, initialReceiveWindowSize)
      ensures this.out == out && this.handle == handle && this.streamId == streamId
    {
      this.state := Idle;
      this.requestHeaders, this.responseHeaders, this.responseBody := [], [], [];
      this.err := None;
      this.streamId := streamId;
      this.cmd := cmd;
      this.initialSendWindowSize := initialSendWindowSize;
      this.remainingSendWindowSize := initialSendWindowSize;
      this.initialReceiveWindowSize := initialReceiveWindowSize;
      this.remainingReceiveWindowSize := initialReceiveWindowSize;
      this.pendingDataFrameWrites := [];
      this.out := out;
      this.handle := handle;
      this.hist := S.History([Idle], upload, [], [], 0, 0, 0, false);
    }

    ghost function Model(): S.Stream
      reads this
    {
      S.Stream(streamId, state, requestHeaders, responseHeaders, responseBody, err, cmd,
               initialSendWindowSize, remainingSendWindowSize, initialReceiveWindowSize, remainingReceiveWindowSize,
               pendingDataFrameWrites, hist)
    }

    ghost function View(): S.View
      reads this, out`remainingSendWindowSize, out`log, out`completions
    {
      S.View(Model(), out.AsWriter())
    }

    /** The outcome of a method is the one that its function says. */
    ghost predicate Follows(panic: Panic, r: Outcome<S.View>)
      reads this, out`remainingSendWindowSize, out`log, out`completions
    {
      match r
      case Ok(v) => panic == None && View() == v
      case Crash(kind) => panic == Some(kind)
    }

    // -------------------------------------------------------------- states

    method SetState(st: State)
      modifies `state, `hist
      ensures Model() == S.SetStates(old(Model()), [st])
    {
      state := st;
      hist := hist.(path := hist.path + [st]);
    }

    method MustBeIn(states: set<State>) returns (panic: Panic)
      ensures panic == if state in states then None else Some(IllegalStreamState)
    {
      panic := if state in states then None else Some(IllegalStreamState);
    }

    /** END_STREAM was received. */
    method CloseRemoteEnd(endStream: bool)
      modifies `state, `hist
      ensures Model() == S.SetStates(old(Model()), RemoteEnd(old(state), endStream))
    {
      assert hist.path + [] == hist.path;
      if endStream {
        if state == Open {
          SetState(HalfClosedRemote);
        }
        if state == HalfClosedLocal {
          SetState(Closed);
        }
      }
    }

    /** END_STREAM was sent. */
    method CloseLocalEnd(endStream: bool)
      modifies `state, `hist
      ensures Model() == S.SetStates(old(Model()), LocalEnd(old(state), endStream))
    {
      assert hist.path + [] == hist.path;
      if endStream {
        if state == Open {
          SetState(HalfClosedLocal);
        }
        if state == HalfClosedRemote {
          SetState(Closed);
        }
      }
    }

    method HandleIncomingFrame(f: Frame) returns (error: Option<ErrorCode>)
      modifies `state, `hist
      ensures match Incoming(old(state), f)
              case None => error == Some(STREAM_CLOSED) && Model() == old(Model())
              case Some(sets) => error == None && Model() == S.SetStates(old(Model()), sets)
    {
      error := None;
      match f {
        case Data(d) =>
          if state !in {Open, HalfClosedLocal} {
            return Some(STREAM_CLOSED);
          }
          CloseRemoteEnd(d.endStream);
        case Headers(_, endStream, _, _, _) =>
          if state !in {Idle, Open, HalfClosedLocal, ReservedRemote} {
            return Some(STREAM_CLOSED);
          }
          ghost var path := hist.path;
          if state == ReservedRemote {
            SetState(HalfClosedLocal);
          }
          CloseRemoteEnd(endStream);
          assert old(state) == ReservedRemote ==>
              hist.path == path + ([HalfClosedLocal] + RemoteEnd(HalfClosedLocal, endStream));
        case RstStream(_, _) => SetState(Closed);
        case PushPromise(_, _, _, _) =>
          if state != Idle {
            return Some(STREAM_CLOSED);
          }
          SetState(ReservedRemote);
        case _ => assert hist.path + [] == hist.path;
      }
    }

    method HandleOutgoingFrame(f: Frame) returns (panic: Panic)
      modifies `state, `hist
      ensures match Outgoing(old(state), f)
              case Crash(kind) => panic == Some(kind)
              case Ok(sets) => panic == None && Model() == S.SetStates(old(Model()), sets)
    {
      panic := None;
      match f {
        case Data(d) =>
          panic := MustBeIn({Open, HalfClosedRemote});
          if panic.Some? { return; }
          CloseLocalEnd(d.endStream);
        case Headers(_, endStream, _, _, _) =>
          panic := MustBeIn({Idle, Open, HalfClosedRemote});
          if panic.Some? { return; }
          ghost var path := hist.path;
          if state == Idle {
            SetState(Open);
          }
          CloseLocalEnd(endStream);
          assert old(state) == Idle ==> hist.path == path + ([Open] + LocalEnd(Open, endStream));
        case RstStream(_, _) => SetState(Closed);
        case _ => assert hist.path + [] == hist.path;
      }
    }

    // -------------------------------------------------------------- sending

    predicate RemainingSendFlowControlWindowIsEnough(nBytesToWrite: int)
      reads this, out`remainingSendWindowSize
    {
      remainingSendWindowSize > nBytesToWrite && out.RemainingSendFlowControlWindowIsEnough(nBytesToWrite)
    }

    method DecreaseSendFlowControlWindow(nBytesToWrite: int)
      modifies `remainingSendWindowSize, out`remainingSendWindowSize
      ensures remainingSendWindowSize == old(remainingSendWindowSize) - nBytesToWrite
      ensures out.remainingSendWindowSize == old(out.remainingSendWindowSize) - nBytesToWrite
    {
      out.DecreaseSendFlowControlWindow(nBytesToWrite);
      remainingSendWindowSize := remainingSendWindowSize - nBytesToWrite;
    }

    method SendDataFrame(d: DataFrame, firstInQueue: bool) returns (panic: Panic)
      modifies this, out`remainingSendWindowSize, out`log
      ensures Follows(panic, S.SendData(old(View()), d, firstInQueue))
      ensures panic == None ==>
                if firstInQueue && old(remainingSendWindowSize > |d.data| && out.remainingSendWindowSize > |d.data|)
                then out.log == old(out.log) + [Data(d)]
                else out.log == old(out.log) && pendingDataFrameWrites == old(pendingDataFrameWrites) + [d]
    {
      panic := None;
      var size := |d.data|;
      if firstInQueue && RemainingSendFlowControlWindowIsEnough(size) {
        DecreaseSendFlowControlWindow(size);
        hist := hist.(written := hist.written + [d]);
        panic := HandleOutgoingFrame(Data(d));
        if panic.Some? { return; }
        out.Write(Data(d));
      } else {
        pendingDataFrameWrites := pendingDataFrameWrites + [d];
      }
    }

    method AddRequestHeaders(headers: seq<HeaderField>)
      modifies `requestHeaders
      ensures requestHeaders == old(requestHeaders) + headers
    {
      var i := 0;
      while i < |headers|
        invariant 0 <= i <= |headers| && requestHeaders == old(requestHeaders) + headers[..i]
      {
        requestHeaders := requestHeaders + [headers[i]];
        i := i + 1;
      }
    }

    method AddResponseHeaders(headers: seq<HeaderField>)
      modifies `responseHeaders
      ensures responseHeaders == old(responseHeaders) + headers
    {
      var i := 0;
      while i < |headers|
        invariant 0 <= i <= |headers| && responseHeaders == old(responseHeaders) + headers[..i]
      {
        responseHeaders := responseHeaders + [headers[i]];
        i := i + 1;
      }
    }

    method FinalizeCommand()
      modifies out`completions
      ensures out.AsWriter() == S.Finalize(Model(), old(out.AsWriter()))
    {
      if cmd.Some? {
        if err.Some? {
          out.Complete(cmd.value, S.StreamFailure(err.value));
        } else {
          out.Complete(cmd.value, S.Response(responseHeaders, responseBody));
        }
      }
    }

    /** The check at the end of SendFrame and ReceiveFrame. */
    method FinalizeIfNewlyClosed(wasClosedBefore: bool, ghost before: S.Stream)
      requires before.state == Closed <==> wasClosedBefore
      modifies out`completions
      ensures View() == S.FinalizeIfNewlyClosed(before, old(View()))
    {
      if state == Closed && !wasClosedBefore {
        FinalizeCommand();
      }
    }

    method SendFrame(f: Frame) returns (panic: Panic)
      modifies this, out`remainingSendWindowSize, out`log, out`completions
      ensures Follows(panic, S.SendFrame(old(View()), f))
    {
      hide S.SendData, S.FinalizeIfNewlyClosed, Outgoing, S.SetStates;
      var wasClosedBefore := state == Closed;
      if f.Data? {
        hist := hist.(submitted := hist.submitted + [f.frame]);
        panic := SendDataFrame(f.frame, |pendingDataFrameWrites| == 0);
        if panic.Some? { return; }
      } else {
        if f.Headers? {
          AddRequestHeaders(f.headers);
        }
        panic := HandleOutgoingFrame(f);
        if panic.Some? { return; }
        out.Write(f);
      }
      FinalizeIfNewlyClosed(wasClosedBefore, old(Model()));
    }

    method CloseWithError(code: ErrorCode) returns (panic: Panic)
      modifies this, out`remainingSendWindowSize, out`log, out`completions
      ensures Follows(panic, S.CloseWithError(old(View()), code))
    {
      panic := None;
      if state == Closed { return; }
      err := Some(S.ClosedByClient(code));
      panic := SendFrame(RstStream(streamId, code));
    }

    method ProcessPendingDataFrames() returns (panic: Panic)
      modifies this, out`remainingSendWindowSize, out`log, out`completions
      ensures Follows(panic, S.ProcessPending(old(View())))
      ensures out.completions == old(out.completions)
    {
      panic := None;
      ghost var start := View();
      while |pendingDataFrameWrites| > 0
        invariant S.ProcessPending(start) == S.ProcessPending(View())
        invariant panic == None && out.completions == old(out.completions)
        decreases |pendingDataFrameWrites|
      {
        var nextFrame := pendingDataFrameWrites[0];
        if !RemainingSendFlowControlWindowIsEnough(|nextFrame.data|) { break; }
        pendingDataFrameWrites := pendingDataFrameWrites[1..];
        panic := SendDataFrame(nextFrame, true);
        if panic.Some? { return; }
      }
    }

    /** The same for the connection, which notes streams that close here: nothing completes their commands. */
    method ProcessPendingForConnection() returns (panic: Panic)
      modifies this, out`remainingSendWindowSize, out`log, out`completions
      ensures Follows(panic, S.ProcessPendingForConnection(old(View())))
    {
      hide S.ProcessPending;
      panic := ProcessPendingDataFrames();
      hist := hist.(silentClose := old(hist.silentClose) || (old(state) != Closed && state == Closed));
    }

    // -------------------------------------------------------------- receiving

    method FlowControlForIncomingDataFrame(d: DataFrame) returns (panic: Panic)
      modifies this, out`remainingSendWindowSize, out`log, out`completions
      ensures Follows(panic, S.AccountData(old(View()), |d.data|))
    {
      hide S.SendFrame, ToUint32;
      panic := None;
      hist := hist.(received := hist.received + |d.data|);
      remainingReceiveWindowSize := remainingReceiveWindowSize - |d.data|;
      if remainingReceiveWindowSize < S.RECEIVE_THRESHOLD {
        var diff := initialReceiveWindowSize - remainingReceiveWindowSize;
        remainingReceiveWindowSize := remainingReceiveWindowSize + diff;
        hist := hist.(refilled := hist.refilled + ToUint32(diff));
        panic := SendFrame(WindowUpdate(streamId, ToUint32(diff)));
      }
    }

    method ReceiveDataFrame(d: DataFrame) returns (panic: Panic)
      modifies this, out`remainingSendWindowSize, out`log, out`completions
      ensures Follows(panic, S.ReceiveData(old(View()), d))
    {
      panic := FlowControlForIncomingDataFrame(d);
      if panic.Some? { return; }
      responseBody := responseBody + d.data;
    }

    method ReceiveWindowUpdateFrame(increment: u32) returns (panic: Panic)
      modifies this, out`remainingSendWindowSize, out`log, out`completions
      ensures Follows(panic, S.ProcessPending(old(View()).(s := S.AddCredit(old(Model()), increment))))
    {
      remainingSendWindowSize := remainingSendWindowSize + increment;
      hist := hist.(credit := hist.credit + increment);
      panic := ProcessPendingDataFrames();
    }

    method DispatchFrame(f: Frame) returns (panic: Panic)
      modifies this, out`remainingSendWindowSize, out`log, out`completions
      ensures Follows(panic, S.Dispatch(old(View()), f))
    {
      panic := None;
      match f {
        case Data(d) => panic := ReceiveDataFrame(d);
        case Headers(_, _, endHeaders, _, headers) =>
          if !endHeaders {
            panic := CloseWithError(REFUSED_STREAM);
          } else {
            AddResponseHeaders(headers);
          }
        case RstStream(_, code) => err := Some(S.ClosedByServer(code));
        case PushPromise(_, endHeaders, _, headers) =>
          if !endHeaders {
            panic := CloseWithError(REFUSED_STREAM);
          } else {
            AddRequestHeaders(headers);
          }
        case WindowUpdate(_, increment) => panic := ReceiveWindowUpdateFrame(increment);
        case _ =>
      }
    }

    /** The rest of ReceiveFrame, once the state has accepted the frame. */
    method ReceiveAcceptedFrame(f: Frame, wasClosedBefore: bool, ghost before: S.Stream) returns (panic: Panic)
      requires before.state == Closed <==> wasClosedBefore
      modifies this, out`remainingSendWindowSize, out`log, out`completions
      ensures Follows(panic, match S.Dispatch(old(View()), f)
                             case Ok(v) => Ok(S.FinalizeIfNewlyClosed(before, v))
                             case Crash(kind) => Crash(kind))
    {
      hide S.Dispatch, S.FinalizeIfNewlyClosed;
      panic := DispatchFrame(f);
      if panic.Some? { return; }
      FinalizeIfNewlyClosed(wasClosedBefore, before);
    }

    method ReceiveFrame(f: Frame) returns (panic: Panic)
      modifies this, out`remainingSendWindowSize, out`log, out`completions
      ensures Follows(panic, S.ReceiveFrame(old(View()), f))
      ensures f.RstStream? && old(state) != Closed && old(cmd).Some? ==>
                && panic == None && state == Closed && out.log == old(out.log)
                && out.completions == old(out.completions) +
                   [S.Completion(old(cmd).value.id, S.StreamFailure(S.ClosedByServer(f.errorCode)))]
    {
      hide S.Dispatch, S.CloseWithError, Incoming, S.FinalizeIfNewlyClosed, S.SetStates;
      ghost var before := View();
      if f.RstStream? && state != Closed && cmd.Some? {
        ResetTells(before, f);
      }
      var wasClosedBefore := state == Closed;
      var error := HandleIncomingFrame(f);
      if error.Some? {
        panic := CloseWithError(error.value);
        return;
      }
      panic := ReceiveAcceptedFrame(f, wasClosedBefore, old(Model()));
    }

    method AssociateWithCommand(command: S.HttpCommand) returns (bound: bool)
      modifies this, out`completions
      ensures (View(), bound) == S.Associate(old(View()), command)
    {
      if cmd.Some? { return false; }
      cmd := Some(command);
      if state == Closed {
        FinalizeCommand();
      }
      bound := true;
    }
  }

  /** The values of stream objects. */
  ghost function Models(ss: seq<Stream>): (r: seq<S.Stream>)
    reads ss
    ensures |r| == |ss| && forall h :: 0 <= h < |ss| ==> r[h] == ss[h].Model()
  {
    if ss == [] then [] else Models(ss[..|ss| - 1]) + [ss[|ss| - 1].Model()]
  }

  lemma ModelsAppend(ss: seq<Stream>, s: Stream)
    ensures Models(ss + [s]) == Models(ss) + [s.Model()]
  {
  }

  /** References as the model has them. */
  ghost function Handles(m: map<StreamId, Stream>): (r: map<StreamId, nat>)
    ensures r.Keys == m.Keys && forall id <- m :: r[id] == m[id].handle
  {
    map id | id in m :: m[id].handle
  }

  lemma HandlesUpdate(m: map<StreamId, Stream>, id: StreamId, s: Stream)
    ensures Handles(m[id := s]) == Handles(m)[id := s.handle]
  {
  }

  lemma HandlesRemove(m: map<StreamId, Stream>, id: StreamId)
    ensures Handles(m - {id}) == Handles(m) - {id}
  {
  }

  class Connection {
    var streams: map<StreamId, Stream>
    var promisedStreamCache: map<StreamId, Stream>
    var nextPingId: u64
    var pendingPingCommands: map<u64, nat>
    var isShutdown: bool
    var serverFrameSize: u32
    var initialSendWindowSizeForNewStreams: u32
    var initialReceiveWindowSizeForNewStreams: u32
    var remainingSendWindowSize: int
    var remainingReceiveWindowSize: int
    ghost var store: seq<Stream>          // every stream object ever created
    ghost var log: seq<Frame>             // frames written
    ghost var completions: seq<S.Completion>
    ghost var hist: C.ConnectionHistory

    constructor ()
      ensures Consistent() && store == [] && Model() == C.UnusedConnection()
    {
      streams, promisedStreamCache, pendingPingCommands := map[], map[], map[];
      nextPingId, isShutdown := 0, false;
      serverFrameSize := C.INITIAL_FRAME_SIZE;
      initialSendWindowSizeForNewStreams := C.INITIAL_WINDOW;
      initialReceiveWindowSizeForNewStreams := C.INITIAL_WINDOW;
      remainingSendWindowSize := C.INITIAL_WINDOW;
      remainingReceiveWindowSize := C.INITIAL_WINDOW;
      store, log, completions := [], [], [];
      hist := C.ConnectionHistory(0, 0, 0, [], [], multiset{}, multiset{}, [], []);
      new;
      assert Handles(streams) == map[];
    }

    ghost predicate Held(s: Stream)
      reads `store
    {
      s.handle < |store| && store[s.handle] == s
    }

    /** Streams know their place in the store, and the maps lead to streams of the store by their ids. */
    ghost predicate Consistent()
      reads `store, `streams, `promisedStreamCache
    {
      && (forall h :: 0 <= h < |store| ==> store[h].handle == h && store[h].out == this)
      && (forall id <- streams :: Held(streams[id]) && streams[id].streamId == id)
      && (forall id <- promisedStreamCache :: Held(promisedStreamCache[id]) && promisedStreamCache[id].streamId == id)
    }

    ghost function AsWriter(): S.Writer
      reads `remainingSendWindowSize, `log, `completions
    {
      S.Writer(remainingSendWindowSize, log, completions)
    }

    ghost function Model(): C.Connection
      reads this, store
    {
      C.Connection(
        AsWriter(), Models(store), Handles(streams), Handles(promisedStreamCache), nextPingId, pendingPingCommands,
        isShutdown, serverFrameSize, initialSendWindowSizeForNewStreams, initialReceiveWindowSizeForNewStreams,
        remainingReceiveWindowSize, hist)
    }

    /** The outcome of a method is the one that its function says. */
    ghost predicate Follows(panic: Panic, r: Outcome<C.Connection>)
      reads this, store
    {
      match r
      case Ok(c) => panic == None && Consistent() && Model() == c
      case Crash(kind) => panic == Some(kind)
    }

    /** Streams are only ever added. */
    twostate predicate Grew()
      reads `store
    {
      old(store) <= store && forall h :: |old(store)| <= h < |store| ==> fresh(store[h])
    }

    lemma ConsistentIsWellFormed()
      requires Consistent()
      ensures C.WellFormed(Model())
    {
    }

    // -------------------------------------------------------------- FlowControlledFrameWriter

    predicate RemainingSendFlowControlWindowIsEnough(nBytesToWrite: int)
      reads `remainingSendWindowSize
    {
      remainingSendWindowSize > nBytesToWrite
    }

    method DecreaseSendFlowControlWindow(nBytesToWrite: int)
      modifies `remainingSendWindowSize
      ensures remainingSendWindowSize == old(remainingSendWindowSize) - nBytesToWrite
    {
      remainingSendWindowSize := remainingSendWindowSize - nBytesToWrite;
    }

    method Write(f: Frame)
      modifies `log
      ensures log == old(log) + [f]
    {
      log := log + [f];
    }

    method Complete(command: S.HttpCommand, result: S.CommandResult)
      modifies `completions
      ensures completions == old(completions) + [S.Completion(command.id, result)]
    {
      completions := completions + [S.Completion(command.id, result)];
    }

    // -------------------------------------------------------------- one stream

    /** When only one stream of the store and the writer have changed, the model has changed by a Put. */
    twostate lemma OneStreamChanged(s: Stream)
      requires old(Consistent()) && old(Held(s))
      requires unchanged(`streams, `promisedStreamCache, `nextPingId, `pendingPingCommands, `isShutdown,
               `serverFrameSize,
                         `initialSendWindowSizeForNewStreams, `initialReceiveWindowSizeForNewStreams,
                         `remainingReceiveWindowSize, `store, `hist)
      requires forall t <- store :: t != s ==> t.Model() == old(t.Model())
      ensures Consistent() && Model() == C.Put(old(Model()), s.handle, s.View())
    {
      assert Models(store) == old(Models(store))[s.handle := s.Model()];
    }

    method Deliver(s: Stream, f: Frame) returns (panic: Panic)
      requires Consistent() && Held(s)
      modifies s, `remainingSendWindowSize, `log, `completions
      ensures Follows(panic, C.ReceiveOn(old(Model()), s.handle, f))
    {
      hide S.ReceiveFrame;
      panic := s.ReceiveFrame(f);
      OneStreamChanged(s);
    }

    method Refuse(s: Stream) returns (panic: Panic)
      requires Consistent() && Held(s)
      modifies s, `remainingSendWindowSize, `log, `completions
      ensures Follows(panic, match S.CloseWithError(C.ViewOf(old(Model()), s.handle), REFUSED_STREAM)
                             case Ok(v) => Ok(C.Put(old(Model()), s.handle, v))
                             case Crash(kind) => Crash(kind))
    {
      hide S.CloseWithError;
      panic := s.CloseWithError(REFUSED_STREAM);
      OneStreamChanged(s);
    }

    method Drain(id: StreamId) returns (panic: Panic)
      requires Consistent() && id in streams
      modifies streams[id], `remainingSendWindowSize, `log, `completions
      ensures Follows(panic, C.DrainOne(old(Model()), id))
    {
      hide S.ProcessPendingForConnection;
      var s := streams[id];
      panic := s.ProcessPendingForConnection();
      OneStreamChanged(s);
    }

    // -------------------------------------------------------------- the stream map

    /** Entering a new stream object. */
    method AddStream(s: Stream)
      requires Consistent() && s.handle == |store| && s.out == this
      modifies `streams, `store
      ensures Consistent() && Held(s) && store == old(store) + [s]
      ensures s.streamId in streams && streams[s.streamId] == s
      ensures Model() == C.AddStream(old(Model()), s.Model())
    {
      hide Models, Handles, Consistent;
      streams := streams[s.streamId := s];
      store := store + [s];
      StreamAdded(s);
      StreamAddedModel(s);
    }

    twostate lemma StreamAddedModel(s: Stream)
      requires store == old(store) + [s] && streams == old(streams)[s.streamId := s] && s.handle == |old(store)|
      requires unchanged(`promisedStreamCache, `nextPingId, `pendingPingCommands, `isShutdown, `serverFrameSize,
                         `initialSendWindowSizeForNewStreams, `initialReceiveWindowSizeForNewStreams,
                         `remainingSendWindowSize, `remainingReceiveWindowSize, `log, `completions, `hist)
      requires forall t <- store :: t.Model() == old(t.Model())
      ensures Model() == C.AddStream(old(Model()), s.Model())
    {
      ModelsAppend(old(store), s);
      HandlesUpdate(old(streams), s.streamId, s);
      assert Models(old(store)) == old(Models(store));
      hide Models, Handles;
    }

    twostate lemma StreamAdded(s: Stream)
      requires old(Consistent()) && s.handle == |old(store)| && s.out == this
      requires store == old(store) + [s] && streams == old(streams)[s.streamId := s]
      requires promisedStreamCache == old(promisedStreamCache)
      ensures Consistent() && Held(s)
    {
    }

    method GetOrCreateStream(id: StreamId) returns (s: Stream)
      requires Consistent()
      modifies `streams, `store
      ensures Consistent() && id in streams && s == streams[id] && Held(s)
      ensures Grew()
      ensures Model() == C.GetOrCreate(old(Model()), id)
    {
      if id in streams {
        s := streams[id];
      } else {
        s := new Stream(id, None, initialSendWindowSizeForNewStreams, initialReceiveWindowSizeForNewStreams, this, [],
            |store|);
        AddStream(s);
      }
    }

    /** The slice of newStream: as many zeros as there are streams, and then the odd ids. */
    method StreamIdsInUse() returns (ids: seq<u32>)
      ensures |ids| > 0 <==> streams != map[]
      ensures forall id: u32 :: id in ids <==> (id == 0 && streams != map[]) || (id % 2 == 1 && id in streams)
    {
      ids := seq(|streams|, _ => 0);
      assert streams != map[] ==> ids[0] == 0;
      var left := streams.Keys;
      while left != {}
        invariant left <= streams.Keys
        invariant |ids| > 0 <==> streams != map[]
        invariant forall id: u32 :: id in ids <==>
            (id == 0 && streams != map[]) || (id % 2 == 1 && id in streams.Keys - left)
        decreases left
      {
        var id: StreamId :| id in left;
        if id % 2 == 1 {
          ids := ids + [id];
        }
        left := left - {id};
      }
    }

    method MaxOf(numbers: seq<u32>) returns (result: u32)
      ensures numbers == [] ==> result == 0
      ensures numbers != [] ==> result in numbers && forall k :: 0 <= k < |numbers| ==> numbers[k] <= result
    {
      if |numbers| == 0 { return 0; }
      result := numbers[0];
      var i := 0;
      while i < |numbers|
        invariant 0 <= i <= |numbers| && result in numbers
        invariant forall k :: 0 <= k < i ==> numbers[k] <= result
      {
        if numbers[i] > result {
          result := numbers[i];
        }
        i := i + 1;
      }
    }

    method NextStreamId() returns (id: StreamId)
      ensures id == C.NextId(streams.Keys)
    {
      var ids := StreamIdsInUse();
      if |ids| > 0 {
        var top := MaxOf(ids);
        id := ToUint32(top as int + 2);
        TopIsMaxOdd(ids, top);
        assert streams.Keys != {};
      } else {
        id := 1;
        assert streams.Keys == {};
      }
    }

    lemma TopIsMaxOdd(ids: seq<u32>, top: u32)
      requires streams != map[] && top in ids && forall k :: 0 <= k < |ids| ==> ids[k] <= top
      requires forall id: u32 :: id in ids <==> (id == 0 && streams != map[]) || (id % 2 == 1 && id in streams)
      ensures top == C.MaxOdd(streams.Keys)
    {
      var odd := set id <- streams.Keys | id % 2 == 1;
      assert forall id <- odd :: id in ids;
      if odd != {} {
        var m := C.Max(odd);
        assert m in ids;
        assert top != 0;
        assert top in odd;
      }
    }

    method NewStream(cmd: S.HttpCommand) returns (s: Stream)
      requires Consistent()
      modifies `streams, `store, `hist
      ensures Consistent() && fresh(s) && store == old(store) + [s] && Held(s)
      ensures s.handle == |old(store)| && s.out == this
      ensures Model() == C.NewStream(old(Model()), cmd)
      ensures |Model().store| == |old(store)| + 1 && s.View() == C.ViewOf(Model(), |old(store)|)
    {
      hide C.NextId, C.AddStream, S.New, Models, Handles, Consistent;
      var id := NextStreamId();
      s := new Stream(id, Some(cmd), initialSendWindowSizeForNewStreams, initialReceiveWindowSizeForNewStreams, this,
          cmd.body, |store|);
      AddStream(s);
      hist := hist.(issuedIds := hist.issuedIds + [id]);
    }

    // -------------------------------------------------------------- requests

    /** The loop counts chunks in uint32. Where the chunk size is 0 its guard stays true for ever. */
    method SendDataFrames(data: seq<byte>, s: Stream) returns (panic: Panic)
      requires s.out == this
      modifies s, `remainingSendWindowSize, `log, `completions
      ensures s.Follows(panic, SendFrom(old(s.View()), data, serverFrameSize, 0))
    {
      hide S.SendFrame;
      panic := None;
      var chunkSize := serverFrameSize;
      var nChunksSent: u32 := 0;
      var total := ToUint32(|data|);
      while ToUint32(nChunksSent * chunkSize) < total
        invariant panic == None
        invariant SendFrom(old(s.View()), data, chunkSize, 0) == SendFrom(s.View(), data, chunkSize, nChunksSent)
        decreases total - ToUint32(nChunksSent * chunkSize)
      {
        if chunkSize == 0 {
          return Some(EndlessLoop);
        }
        SendFromUnfolds(s.View(), data, chunkSize, nChunksSent);
        hide ToUint32, SendFrom;
        var from := ToUint32(nChunksSent * chunkSize);
        var to := Min(ToUint32(ToUint32(nChunksSent + 1) * chunkSize), total);
        if to < from {
          return Some(SliceOutOfRange);
        }
        var nextChunk := data[from..to];
        nChunksSent := ToUint32(nChunksSent + 1);
        var isLast := ToUint32(nChunksSent * chunkSize) >= total;
        panic := s.SendFrame(Data(DataFrame(s.streamId, nextChunk, isLast)));
        if panic.Some? { return; }
      }
    }

    function Min(a: u32, b: u32): u32 {
      if a < b then a else b
    }

    /** The frames of a request, on the stream that newStream has just made. */
    method SendRequest(s: Stream, cmd: S.HttpCommand) returns (panic: Panic)
      requires s.out == this && s.state == Idle
      modifies s, `remainingSendWindowSize, `log, `completions
      ensures s.Follows(panic, C.SendRequest(old(s.View()), cmd, serverFrameSize))
    {
      hide S.SendFrame, C.Chunks, C.SendAll, SendFrom;
      RequestOpens(s.View(), cmd);
      panic := s.SendFrame(C.RequestHeaders(s.streamId, cmd));
      if |cmd.body| > 0 {
        SendFromIsSendChunks(s.View(), cmd.body, serverFrameSize, 0);
        panic := SendDataFrames(cmd.body, s);
      }
    }

    method DoRequest(cmd: S.HttpCommand) returns (panic: Panic)
      requires Consistent()
      modifies this
      ensures Grew()
      ensures Follows(panic, C.DoRequest(old(Model()), cmd))
      ensures panic == None ==> AsksFirst(old(log), log, C.NextId(old(Model()).streams.Keys), cmd)
    {
      hide C.SendRequest, C.NewStream, C.NextId, Consistent, Models, Handles, AsksFirst;
      var s := NewStream(cmd);
      NewStreamIsIdle(old(Model()), cmd);
      label Made:
      panic := SendRequest(s, cmd);
      OneStreamChanged@Made(s);
      if panic == None {
        RequestAsksFirst(old(Model()), cmd);
        assert log == Model().writer.log;
      }
    }

    lemma NewStreamIsIdle(c: C.Connection, cmd: S.HttpCommand)
      ensures var c1 := C.NewStream(c, cmd);
              |c1.store| == |c.store| + 1 && c1.store[|c.store|].state == Idle
                  && c1.serverFrameSize == c.serverFrameSize
    {
      hide C.NextId;
    }

    // -------------------------------------------------------------- commands

    /** The last match in the order of the visit, if any. */
    method FindStreamCreatedWithPushPromise(path: string) returns (result: Stream?, order: seq<StreamId>)
      requires Consistent() && C.WellFormed(Model())
      ensures R.IsOrder(order, promisedStreamCache.Keys)
      ensures match C.FindPromised(Model(), path, order)
              case None => result == null
              case Some(id) =>
                  id in promisedStreamCache && result == promisedStreamCache[id]
                      && promisedStreamCache[id].streamId == id
      ensures if result == null then forall id <- promisedStreamCache :: !IsGetOf(promisedStreamCache[id], path)
              else FindHeader(":method", result.requestHeaders) == "GET"
                       && FindHeader(":path", result.requestHeaders) == path
    {
      hide C.Promises, Consistent, Model, C.WellFormed;
      result := null;
      order := [];
      var left := promisedStreamCache.Keys;
      while left != {}
        invariant left <= promisedStreamCache.Keys && R.IsOrder(order, promisedStreamCache.Keys - left)
        invariant match C.FindPromised(Model(), path, order)
                  case None => result == null
                  case Some(id) =>
                      id in promisedStreamCache && result == promisedStreamCache[id]
                          && promisedStreamCache[id].streamId == id
        invariant if result == null
                  then forall id <- promisedStreamCache.Keys - left :: !IsGetOf(promisedStreamCache[id], path)
                  else IsGetOf(result, path)
        decreases left
      {
        var id: StreamId :| id in left;
        var s := promisedStreamCache[id];
        CachedModel(id);
        FindNext(Model(), path, order, id);
        VisitNext(order, promisedStreamCache.Keys, left, id);
        hide C.FindPromised, R.IsOrder;
        if PromisedFor(s, path) {
          result := s;
        }
        order := order + [id];
        left := left - {id};
      }
      assert promisedStreamCache.Keys - left == promisedStreamCache.Keys;
    }

    lemma CachedModel(id: StreamId)
      requires Consistent() && id in promisedStreamCache
      ensures id in Model().cache && Model().cache[id] < |Model().store|
      ensures Model().store[Model().cache[id]] == promisedStreamCache[id].Model()
      ensures promisedStreamCache[id].streamId == id
      ensures promisedStreamCache[id] in store
    {
    }

    predicate IsGetOf(s: Stream, path: string)
      reads s
    {
      FindHeader(":method", s.requestHeaders) == "GET" && FindHeader(":path", s.requestHeaders) == path
    }

    predicate PromisedFor(s: Stream, path: string)
      reads s
      ensures PromisedFor(s, path) == C.Promises(s.Model(), path) == IsGetOf(s, path)
    {
      C.IsGet(s.requestHeaders) && FindHeader(":path", s.requestHeaders) == path
    }

    method Bind(s: Stream, cmd: S.HttpCommand) returns (bound: bool)
      requires Consistent() && Held(s)
      modifies s, `completions
      ensures Consistent() && s.handle < |old(Model()).store|
      ensures var (v, b) := S.Associate(C.ViewOf(old(Model()), s.handle), cmd);
              bound == b && Model() == C.Put(old(Model()), s.handle, v)
    {
      hide S.Associate;
      bound := s.AssociateWithCommand(cmd);
      OneStreamChanged(s);
    }

    method Uncache(id: StreamId)
      requires Consistent() && id in promisedStreamCache
      modifies `promisedStreamCache, `hist
      ensures Consistent() && Held(old(promisedStreamCache[id]))
      ensures promisedStreamCache == old(promisedStreamCache) - {id}
      ensures Model() == old(Model()).(cache := old(Model()).cache - {id},
                                       hist := old(hist).(consumed := old(hist).consumed + multiset{id}))
    {
      hide Models, Handles;
      HandlesRemove(promisedStreamCache, id);
      promisedStreamCache := promisedStreamCache - {id};
      hist := hist.(consumed := hist.consumed + multiset{id});
    }

    /** A GET answered from the push cache. */
    method TakeFromCache(cmd: S.HttpCommand, id: StreamId)
      requires Consistent() && id in promisedStreamCache
      modifies this, promisedStreamCache[id]
      ensures store == old(store)
      ensures Consistent() && id in old(Model()).cache && old(Model()).cache[id] < |old(Model()).store|
      ensures Model() == C.TakeFromCache(old(Model()), cmd, id)
    {
      hide S.Associate, Consistent;
      CachedModel(id);
      var s := promisedStreamCache[id];
      Uncache(id);
      var bound := Bind(s, cmd);
      if !bound {
        Complete(cmd, S.AlreadyBound);
      }
    }

    method ExecuteGetCommand(cmd: S.HttpCommand) returns (panic: Panic, ghost order: seq<StreamId>)
      requires Consistent() && C.WellFormed(Model())
      modifies this, store
      ensures Grew()
      ensures R.IsOrder(order, old(promisedStreamCache).Keys)
      ensures Follows(panic, C.ExecuteGet(old(Model()), cmd, order))
    {
      hide C.TakeFromCache, C.DoRequest, C.FindPromised, C.WellFormed, R.IsOrder, Consistent;
      var s;
      s, order := FindStreamCreatedWithPushPromise(FindHeader(":path", cmd.headers));
      if s != null {
        CachedModel(s.streamId);
        TakeFromCache(cmd, s.streamId);
        panic := None;
      } else {
        panic := DoRequest(cmd);
      }
    }

    method ExecuteHttpCommand(cmd: S.HttpCommand) returns (panic: Panic, ghost order: seq<StreamId>)
      requires Consistent() && C.WellFormed(Model())
      modifies this, store
      ensures Grew()
      ensures R.IsOrder(order, old(promisedStreamCache).Keys)
      ensures Follows(panic, C.ExecuteHttp(old(Model()), cmd, order))
    {
      hide C.ByMethod, C.WellFormed, Consistent, Models, Handles, R.IsOrder;
      hist := hist.(commands := hist.commands + [cmd.id]);
      ConsistentIsWellFormed();
      panic, order := ExecuteByMethod(cmd);
    }

    method ExecuteByMethod(cmd: S.HttpCommand) returns (panic: Panic, ghost order: seq<StreamId>)
      requires Consistent() && C.WellFormed(Model())
      modifies this, store
      ensures Grew()
      ensures R.IsOrder(order, old(promisedStreamCache).Keys)
      ensures Follows(panic, C.ByMethod(old(Model()), cmd, order))
    {
      hide C.ExecuteGet, C.DoRequest, C.MethodOf, C.WellFormed, Consistent, R.IsOrder, Models, Handles;
      panic := None;
      order := Enumerate(promisedStreamCache.Keys);
      match C.MethodOf(cmd) {
        case Get => panic, order := ExecuteGetCommand(cmd);
        case PutOrPost => panic := DoRequest(cmd);
        case Missing => Complete(cmd, S.MethodMissing);
        case Unsupported => Complete(cmd, S.MethodNotSupported);
      }
    }

    method ExecutePingCommand(cmd: nat)
      requires Consistent()
      modifies `nextPingId, `pendingPingCommands, `hist, `log
      ensures Consistent() && Model() == C.ExecutePing(old(Model()), cmd)
    {
      hide Consistent, Models, Handles;
      var payload := nextPingId;
      nextPingId := (nextPingId as int + 1) % 0x1_0000_0000_0000_0000;
      pendingPingCommands := pendingPingCommands[payload := cmd];
      hist := hist.(pings := hist.pings + [cmd]);
      Write(Ping(0, payload, false));
    }

    /** Every stream of the map is added to the report, in the order of the visit. */
    method ExecuteMonitoringCommand(result: M.MonitoringCommandResult)
      requires Consistent() && C.WellFormed(Model()) && result.streamInfo[..] == []
      modifies result
      ensures M.IsReport(result.streamInfo[..], Model(), Model().streams.Keys)
    {
      hide M.InfoOf, Consistent, C.WellFormed;
      assert Handles(streams).Keys == streams.Keys;
      ghost var c := Model();
      var left := streams.Keys;
      while left != {}
        invariant left <= streams.Keys
        invariant M.IsReport(result.streamInfo[..], c, streams.Keys - left)
        decreases left
      {
        hide M.IsReport;
        var id: StreamId :| id in left;
        var s := streams[id];
        ghost var infos := result.streamInfo[..];
        InfoIs(id);
        result.AddStreamInfo(M.StreamInfo(s.streamId, FindHeader(":method", s.requestHeaders),
            FindHeader(":path", s.requestHeaders),
                                          s.state, s.streamId in promisedStreamCache));
        M.AddingReports(infos, result.streamInfo[..], c, streams.Keys - left, id);
        assert streams.Keys - left + {id} == streams.Keys - (left - {id});
        left := left - {id};
      }
      assert streams.Keys - left == streams.Keys;
    }

    lemma InfoIs(id: StreamId)
      requires Consistent() && id in streams
      ensures id in Model().streams && Model().streams[id] < |Model().store|
      ensures M.InfoOf(Model(), id) ==
              M.StreamInfo(streams[id].streamId, FindHeader(":method", streams[id].requestHeaders),
                           FindHeader(":path", streams[id].requestHeaders), streams[id].state,
                               streams[id].streamId in promisedStreamCache)
    {
      hide FindHeader;
    }

    method Shutdown()
      requires Consistent()
      modifies `isShutdown
      ensures Consistent() && Model() == old(Model()).(isShutdown := true)
    {
      hide Consistent, Models, Handles;
      isShutdown := true;
    }

    // -------------------------------------------------------------- frames for the connection

    method HandleSettingsFrame(settings: map<Setting, u32>, ack: bool)
      requires Consistent()
      modifies `serverFrameSize, `initialSendWindowSizeForNewStreams, `log
      ensures Consistent() && Model() == C.HandleSettings(old(Model()), settings, ack)
    {
      hide Consistent, Models, Handles;
      if SETTINGS_MAX_FRAME_SIZE in settings {
        serverFrameSize := settings[SETTINGS_MAX_FRAME_SIZE];
      }
      if SETTINGS_INITIAL_WINDOW_SIZE in settings {
        initialSendWindowSizeForNewStreams := settings[SETTINGS_INITIAL_WINDOW_SIZE];
      }
      if !ack {
        Write(Settings(0, true, map[]));
      }
    }

    method HandlePingFrame(payload: u64, ack: bool)
      requires Consistent()
      modifies `pendingPingCommands, `hist, `log
      ensures Consistent() && Model() == C.HandlePing(old(Model()), payload, ack)
    {
      hide Consistent, Models, Handles;
      if ack {
        if payload in pendingPingCommands {
          hist := hist.(pongs := hist.pongs + [(payload, pendingPingCommands[payload])]);
          pendingPingCommands := pendingPingCommands - {payload};
        }
      } else {
        Write(Ping(0, payload, true));
      }
    }

    method IncreaseSendFlowControlWindow(increment: u32)
      requires Consistent()
      modifies `remainingSendWindowSize, `hist
      ensures Consistent() && Model() == C.AddConnectionCredit(old(Model()), increment)
    {
      hide Consistent, Models, Handles;
      remainingSendWindowSize := remainingSendWindowSize + increment;
      hist := hist.(credit := hist.credit + increment);
    }

    /** The whole map is drained, in the order of the visit. */
    method HandleWindowUpdateFrame(increment: u32) returns (panic: Panic, ghost order: seq<StreamId>)
      requires Consistent()
      modifies this, store
      ensures store == old(store)
      ensures R.IsOrder(order, old(streams).Keys)
      ensures Follows(panic, C.DrainAll(C.AddConnectionCredit(old(Model()), increment), order))
    {
      hide C.DrainAll, C.DrainOne, C.AddConnectionCredit, R.IsOrder;
      IncreaseSendFlowControlWindow(increment);
      panic, order := DrainStreams();
    }

    method DrainStreams() returns (panic: Panic, ghost order: seq<StreamId>)
      requires Consistent()
      modifies `remainingSendWindowSize, `log, `completions, store
      ensures R.IsOrder(order, streams.Keys)
      ensures Follows(panic, C.DrainAll(old(Model()), order))
    {
      hide C.DrainAll, C.DrainOne, R.IsOrder, Consistent, Model;
      panic := None;
      order := [];
      var left := streams.Keys;
      NothingVisited(Model(), left);
      while left != {} && panic.None?
        invariant left <= streams.Keys && R.IsOrder(order, streams.Keys - left)
        invariant Follows(panic, C.DrainAll(old(Model()), order))
        decreases left
      {
        var id: StreamId :| id in left;
        DrainAllNext(old(Model()), order, id);
        VisitNext(order, streams.Keys, left, id);
        HeldInStore(id);
        panic := Drain(id);
        order := order + [id];
        left := left - {id};
      }
      if panic.Some? {
        order := CompleteOrder(old(Model()), order, streams.Keys, left);
      } else {
        assert streams.Keys - left == streams.Keys;
      }
    }

    lemma HeldInStore(id: StreamId)
      requires Consistent() && id in streams
      ensures streams[id] in store
    {
    }

    method HandleFrameForConnection(f: Frame) returns (panic: Panic, ghost order: seq<StreamId>)
      requires Consistent()
      modifies this, store
      ensures store == old(store)
      ensures R.IsOrder(order, old(streams).Keys)
      ensures Follows(panic, C.HandleForConnection(old(Model()), f, order))
    {
      hide C.DrainAll, C.AddConnectionCredit, C.HandleSettings, C.HandlePing, R.IsOrder, Consistent, Models, Handles;
      panic := None;
      order := Enumerate(streams.Keys);
      match f {
        case Settings(_, ack, settings) => HandleSettingsFrame(settings, ack);
        case Ping(_, payload, ack) => HandlePingFrame(payload, ack);
        case WindowUpdate(_, increment) => panic, order := HandleWindowUpdateFrame(increment);
        case GoAway(_, _, _) => Shutdown();
        case _ =>
      }
    }

    // -------------------------------------------------------------- frames for a stream

    method FlowControlForIncomingDataFrame(size: nat)
      requires Consistent()
      modifies `remainingReceiveWindowSize, `hist, `log
      ensures Consistent() && Model() == C.AccountConnectionData(old(Model()), size)
    {
      hide Consistent, Models, Handles, ToUint32;
      hist := hist.(received := hist.received + size);
      remainingReceiveWindowSize := remainingReceiveWindowSize - size;
      if remainingReceiveWindowSize < S.RECEIVE_THRESHOLD {
        var diff := C.INITIAL_WINDOW - remainingReceiveWindowSize;
        remainingReceiveWindowSize := remainingReceiveWindowSize + diff;
        hist := hist.(refilled := hist.refilled + ToUint32(diff));
        Write(WindowUpdate(0, ToUint32(diff)));
      }
    }

    /** getOrCreateStream and then ReceiveFrame. */
    method ReceiveOnStream(id: StreamId, f: Frame) returns (panic: Panic)
      requires Consistent()
      modifies this, store
      ensures Grew()
      ensures var c1 := C.GetOrCreate(old(Model()), id);
              id in c1.streams && c1.streams[id] < |c1.store| && Follows(panic, C.ReceiveOn(c1, c1.streams[id], f))
    {
      hide C.ReceiveOn, C.GetOrCreate;
      var s := GetOrCreateStream(id);
      panic := Deliver(s, f);
    }

    method HandleIncomingDataFrame(f: Frame) returns (panic: Panic)
      requires Consistent() && f.Data? && C.WellFormed(Model())
      modifies this, store
      ensures Grew()
      ensures Follows(panic, C.HandleForStream(old(Model()), f))
    {
      hide C.ReceiveOn, C.GetOrCreate, C.AccountConnectionData, Consistent, C.WellFormed;
      FlowControlForIncomingDataFrame(|f.frame.data|);
      panic := ReceiveOnStream(f.frame.streamId, f);
    }

    method HandleIncomingRstStreamFrame(f: Frame) returns (panic: Panic)
      requires Consistent() && f.RstStream? && C.WellFormed(Model())
      modifies this, store
      ensures Grew()
      ensures Follows(panic, C.HandleForStream(old(Model()), f))
    {
      hide C.ReceiveOn, C.GetOrCreate, C.WellFormed;
      panic := None;
      var s := GetOrCreateStream(f.streamId);
      if s.state != Idle {
        panic := Deliver(s, f);
      }
    }

    /** The promised stream is refused unless a GET was promised, and cached otherwise. */
    method KeepPromise(promised: Stream, f: Frame) returns (panic: Panic)
      requires Consistent() && f.PushPromise? && f.promisedStreamId in streams
      requires promised == streams[f.promisedStreamId]
      modifies this, promised
      ensures store == old(store)
      ensures f.promisedStreamId in old(Model()).streams
      ensures old(Model()).streams[f.promisedStreamId] < |old(Model()).store|
      ensures Follows(panic, C.AfterPromise(old(Model()), f))
    {
      hide S.CloseWithError, C.IsGet, Models;
      panic := None;
      if !C.IsGet(f.headers) {
        panic := Refuse(promised);
      } else {
        Cache(promised);
      }
    }

    method Cache(promised: Stream)
      requires Consistent() && Held(promised)
      modifies `promisedStreamCache, `hist
      ensures Consistent()
      ensures Model() == old(Model()).(cache := old(Model()).cache[promised.streamId := promised.handle],
                                       hist := old(hist).(cached := old(hist).cached + multiset{promised.streamId}))
    {
      hide Models, Handles;
      HandlesUpdate(promisedStreamCache, promised.streamId, promised);
      promisedStreamCache := promisedStreamCache[promised.streamId := promised];
      hist := hist.(cached := hist.cached + multiset{promised.streamId});
    }

    lemma StreamModel(id: StreamId)
      requires Consistent() && id in streams
      ensures Model().streams[id] < |Model().store| && Model().store[Model().streams[id]] == streams[id].Model()
      ensures streams[id] in store
    {
    }

    method HandleIncomingPushPromiseFrame(f: Frame) returns (panic: Panic)
      requires Consistent() && f.PushPromise? && C.WellFormed(Model())
      modifies this, store
      ensures Grew()
      ensures Follows(panic, C.HandlePushPromise(old(Model()), f))
    {
      hide C.ReceiveOn, C.GetOrCreate, C.AfterPromise, C.WellFormed, Consistent, Models, Handles;
      panic := None;
      if f.streamId !in streams { return; }
      StreamModel(f.streamId);
      if streams[f.streamId].state !in {Open, HalfClosedLocal} { return; }
      var promised := GetOrCreateStream(f.promisedStreamId);
      panic := Deliver(promised, f);
      if panic.Some? { return; }
      panic := KeepPromise(promised, f);
    }

    method HandleFrameForStream(f: Frame) returns (panic: Panic)
      requires Consistent() && C.WellFormed(Model())
      modifies this, store
      ensures Grew()
      ensures Follows(panic, C.HandleForStream(old(Model()), f))
    {
      hide C.ReceiveOn, C.GetOrCreate, C.HandlePushPromise, C.WellFormed, Consistent;
      if f.PushPromise? {
        panic := HandleIncomingPushPromiseFrame(f);
      } else if f.Data? {
        hide C.HandleForStream;
        panic := HandleIncomingDataFrame(f);
      } else if f.RstStream? {
        hide C.HandleForStream;
        panic := HandleIncomingRstStreamFrame(f);
      } else {
        panic := ReceiveOnStream(f.GetStreamId(), f);
      }
    }

    method HandleIncomingFrame(f: Frame) returns (panic: Panic, ghost order: seq<StreamId>)
      requires Consistent() && C.WellFormed(Model())
      modifies this, store
      ensures Grew()
      ensures f.GetStreamId() == 0 ==> R.IsOrder(order, old(streams).Keys)
      ensures Follows(panic, C.HandleIncoming(old(Model()), f, order))
    {
      hide C.HandleForConnection, C.HandleForStream, C.WellFormed, Consistent, R.IsOrder;
      order := [];
      if f.GetStreamId() == 0 {
        panic, order := HandleFrameForConnection(f);
      } else {
        panic := HandleFrameForStream(f);
      }
    }
  }

  /** The event loop: one event after the other, in a single thread, until the connection is shut down. */
  class Loop {
    const conn: Connection

    constructor ()
      ensures fresh(conn) && conn.Consistent() && conn.store == [] && conn.Model() == C.NewConnection()
    {
      conn := new Connection();
      new;
      conn.Write(Settings(0, false, map[]));
    }

    method Handle(e: R.Event) returns (panic: Panic, ghost order: seq<StreamId>)
      requires conn.Consistent() && C.WellFormed(conn.Model())
      modifies conn, conn.store
      ensures conn.Grew()
      ensures R.Legal(old(conn.Model()), R.Input(e, order))
      ensures conn.Follows(panic, R.Step(old(conn.Model()), R.Input(e, order)))
    {
      hide C.HandleIncoming, C.ExecuteHttp, C.ExecutePing, C.WellFormed, conn.Consistent, R.IsOrder, Models;
      panic := None;
      order := [];
      match e {
        case Received(f) => panic, order := conn.HandleIncomingFrame(f);
        case Http(cmd) => panic, order := conn.ExecuteHttpCommand(cmd);
        case PingCommand(id) => conn.ExecutePingCommand(id);
        case Monitoring =>
          var result := new M.MonitoringCommandResult();
          conn.ExecuteMonitoringCommand(result);
        case Shutdown => conn.Shutdown();
      }
    }

    /** Whatever events arrive, the loop goes through a run of the model, or panics where the model does. */
    method Run(events: seq<R.Event>) returns (panic: Panic, ghost states: seq<C.Connection>, ghost inputs: seq<R.Input>)
      requires conn.Consistent() && conn.Model() == C.NewConnection()
      modifies conn, conn.store
      ensures R.IsRun(states, inputs)
      ensures |inputs| <= |events| && forall k :: 0 <= k < |inputs| ==> inputs[k].event == events[k]
      ensures panic.None? ==>
                && conn.Consistent() && conn.Model() == states[|inputs|] && R.Valid(conn.Model())
                && (conn.isShutdown || |inputs| == |events|)
      ensures panic.Some? ==>
                && |inputs| < |events| && C.WellFormed(states[|inputs|])
                && exists order :: R.Legal(states[|inputs|], R.Input(events[|inputs|], order)) &&
                                   R.Step(states[|inputs|], R.Input(events[|inputs|], order)) == Crash(panic.value)
    {
      hide R.Step, R.Legal, R.Valid, C.WellFormed, conn.Consistent, conn.Model;
      panic := None;
      states, inputs := [conn.Model()], [];
      R.RunKeeps(states, inputs, 0);
      var i := 0;
      while i < |events|
        invariant 0 <= i <= |events| && |inputs| == i && |states| == i + 1
        invariant panic == None && conn.Consistent() && conn.Model() == states[i]
        invariant R.IsRun(states, inputs) && R.Valid(conn.Model())
        invariant forall k :: 0 <= k < i ==> inputs[k].event == events[k]
        invariant forall h :: 0 <= h < |conn.store| ==> conn.store[h] in old(conn.store) || fresh(conn.store[h])
      {
        ghost var order;
        conn.ConsistentIsWellFormed();
        panic, order := Handle(events[i]);
        if panic.Some? { return; }
        ghost var next := R.Input(events[i], order);
        R.RunGoesOn(states, inputs, next, conn.Model());
        states, inputs := states + [conn.Model()], inputs + [next];
        i := i + 1;
        R.RunKeeps(states, inputs, i);
        if conn.isShutdown { return; }
      }
    }
  }
}
