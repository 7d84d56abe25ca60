/**
 What the connection does, as functions on values. Stream objects live in `store`; `streams` and `cache` are the
 two maps of the program and hold references, that is, positions in `store`.
 */
module ConnectionSpec {
  import opened Wrappers
  import opened Frames
  import opened StreamState
  import opened StreamSpec

  /** Bookkeeping that the program does not keep. */
  datatype ConnectionHistory = ConnectionHistory(
    credit: nat,                        // sum of the connection-level WINDOW_UPDATE increments received
    received: nat,                      // DATA bytes accounted
    refilled: nat,                      // sum of the connection-level WINDOW_UPDATE increments sent
    issuedIds: seq<StreamId>,           // ids returned by newStream
    commands: seq<nat>,                 // HTTP commands executed
    cached: multiset<StreamId>,         // insertions into the push cache
    consumed: multiset<StreamId>,       // GETs answered from the push cache
    pings: seq<nat>,                    // PING commands executed
    pongs: seq<(u64, nat)>              // PING commands completed, with the payload that completed them
  )

  datatype Connection = Connection(
    writer: Writer,
    store: seq<Stream>,
    streams: map<StreamId, nat>,
    cache: map<StreamId, nat>,
    nextPingId: u64,
    pendingPings: map<u64, nat>,
    isShutdown: bool,
    serverFrameSize: u32,
    initialSendWindow: u32,
    initialReceiveWindow: u32,
    receiveWindow: int,
    hist: ConnectionHistory)

  const INITIAL_WINDOW: u32 := 65535  // 2 << 15 - 1
  const INITIAL_FRAME_SIZE: u32 := 16384 // 2 << 13

  /** newConnection */
  function UnusedConnection(): Connection {
    Connection(Writer(INITIAL_WINDOW, [], []), [], map[], map[], 0, map[], false,
               INITIAL_FRAME_SIZE, INITIAL_WINDOW, INITIAL_WINDOW, INITIAL_WINDOW,
               ConnectionHistory(0, 0, 0, [], [], multiset{}, multiset{}, [], []))
  }

  /** The connection when the event loop starts: Start has written its SETTINGS frame. */
  function NewConnection(): Connection {
    Write(UnusedConnection(), Settings(0, false, map[]))
  }

  /** References are not dangling, and a map key is the id of the stream it leads to. */
  ghost predicate WellFormed(c: Connection) {
    && (forall id <- c.streams :: c.streams[id] < |c.store| && c.store[c.streams[id]].id == id)
    && (forall id <- c.cache :: c.cache[id] < |c.store| && c.store[c.cache[id]].id == id)
  }

  function ViewOf(c: Connection, h: nat): View
    requires h < |c.store|
  {
    View(c.store[h], c.writer)
  }

  function Put(c: Connection, h: nat, v: View): Connection
    requires h < |c.store|
  {
    c.(store := c.store[h := v.s], writer := v.w)
  }

  function Write(c: Connection, f: Frame): Connection {
    c.(writer := WriteFrame(c.writer, f))
  }

  function Complete(c: Connection, cmd: HttpCommand, result: CommandResult): Connection {
    c.(writer := c.writer.(completions := c.writer.completions + [Completion(cmd.id, result)]))
  }

  // ---------------------------------------------------------------- streams

  function AddStream(c: Connection, s: Stream): Connection {
    c.(store := c.store + [s], streams := c.streams[s.id := |c.store|])
  }

  function GetOrCreate(c: Connection, id: StreamId): Connection {
    if id in c.streams then c
    else AddStream(c, New(id, None, [], c.initialSendWindow, c.initialReceiveWindow))
  }

  /** The largest odd id in use, 0 where there is none. */
  function MaxOdd(ids: set<StreamId>): u32
  {
    var odd := set id <- ids | id % 2 == 1;
    if odd == {} then 0 else Max(odd)
  }

  function Max(ids: set<StreamId>): (m: u32)
    requires ids != {}
    ensures m in ids && forall id <- ids :: id <= m
  {
    MaxExists(ids);
    var m :| m in ids && forall id <- ids :: id <= m;
    m
  }

  lemma FindMax(ids: set<StreamId>) returns (m: StreamId)
    requires ids != {}
    ensures m in ids && forall id <- ids :: id <= m
  {
    var x :| x in ids;
    m := x;
    if ids != {x} {
      var top := FindMax(ids - {x});
      m := if x < top then top else x;
      forall id | id in ids ensures id <= m {
        assert id == x || id in ids - {x};
      }
    }
  }

  lemma MaxExists(ids: set<StreamId>)
    requires ids != {}
    ensures exists m :: m in ids && forall id <- ids :: id <= m
  {
    var m := FindMax(ids);
  }

  /** newStream's choice; the zeros that pad its slice make the maximum 0 when no odd id is in use. */
  function NextId(ids: set<StreamId>): StreamId {
    if ids == {} then 1 else ToUint32(MaxOdd(ids) + 2)
  }

  function NewStream(c: Connection, cmd: HttpCommand): Connection {
    var id := NextId(c.streams.Keys);
    var c1 := AddStream(c, New(id, Some(cmd), cmd.body, c.initialSendWindow, c.initialReceiveWindow));
    c1.(hist := c1.hist.(issuedIds := c1.hist.issuedIds + [id]))
  }

  // ---------------------------------------------------------------- requests

  /** The frames sendDataFrames cuts `data` into, from chunk `sent` on, in uint32 arithmetic. */
  function Chunks(id: StreamId, data: seq<byte>, chunkSize: u32, sent: u32): Outcome<seq<DataFrame>>
    decreases ToUint32(|data|) - ToUint32(sent * chunkSize)
  {
    var total := ToUint32(|data|);
    var from := ToUint32(sent * chunkSize);
    if from >= total then Ok([])
    else if chunkSize == 0 then Crash(EndlessLoop)
    else
      var next := ToUint32(sent + 1);
      var to := ToUint32(next * chunkSize);
      var end := if to < total then to else total;
      if end < from then Crash(SliceOutOfRange)
      else
        ChunkAdvances(sent, chunkSize, total);
        var rest :- Chunks(id, data, chunkSize, next);
        Ok([DataFrame(id, data[from..end], to >= total)] + rest)
  }

  lemma ChunkAdvances(sent: u32, chunkSize: u32, total: u32)
    requires chunkSize != 0
    requires ToUint32(sent * chunkSize) < total
    requires ToUint32(sent * chunkSize) <= ToUint32(ToUint32(sent + 1) * chunkSize)
    ensures ToUint32(sent * chunkSize) < ToUint32(ToUint32(sent + 1) * chunkSize)
  {
    hide ToUint32;
    var a := sent * chunkSize;
    if sent < 0xFFFF_FFFF {
      StaysBelow(sent + 1);
      assert (sent + 1) * chunkSize == a + chunkSize;
      StepMoves(a, chunkSize);
    } else {
      StepsBack(chunkSize);
      assert a == 0x1_0000_0000 * chunkSize - chunkSize && 0 * chunkSize == 0;
    }
  }

  lemma StaysBelow(n: int)
    requires 0 <= n < 0x1_0000_0000
    ensures ToUint32(n) == n
  {
  }

  lemma StepMoves(a: int, step: int)
    requires 0 < step < 0x1_0000_0000
    ensures ToUint32(a + step) != ToUint32(a)
  {
  }

  lemma StepsBack(step: int)
    requires 0 < step < 0x1_0000_0000
    ensures ToUint32(0x1_0000_0000 * step - step) != 0 && ToUint32(0) == 0 && ToUint32(0x1_0000_0000) == 0
  {
  }

  function SendAll(v: View, frames: seq<DataFrame>): Outcome<View>
    decreases frames
  {
    if frames == [] then Ok(v)
    else
      var v1 :- SendFrame(v, Data(frames[0]));
      SendAll(v1, frames[1..])
  }

  function RequestHeaders(id: StreamId, cmd: HttpCommand): Frame {
    Headers(id, |cmd.body| == 0, true, false, cmd.headers)
  }

  function SendRequest(v: View, cmd: HttpCommand, frameSize: u32): Outcome<View> {
    var v1 :- SendFrame(v, RequestHeaders(v.s.id, cmd));
    if cmd.body == [] then Ok(v1)
    else
      var frames :- Chunks(v.s.id, cmd.body, frameSize, 0);
      SendAll(v1, frames)
  }

  function DoRequest(c: Connection, cmd: HttpCommand): Outcome<Connection> {
    var c1 := NewStream(c, cmd);
    var v :- SendRequest(ViewOf(c1, |c.store|), cmd, c.serverFrameSize);
    Ok(Put(c1, |c.store|, v))
  }

  predicate IsGet(headers: seq<HeaderField>) {
    FindHeader(":method", headers) == "GET"
  }

  predicate Promises(s: Stream, path: string) {
    IsGet(s.requestHeaders) && FindHeader(":path", s.requestHeaders) == path
  }

  /** The cached stream that findStreamCreatedWithPushPromise returns when it visits the cache in `order`. */
  function FindPromised(c: Connection, path: string, order: seq<StreamId>): (r: Option<StreamId>)
    requires WellFormed(c)
    ensures r.Some? ==> r.value in c.cache && Promises(c.store[c.cache[r.value]], path)
  {
    if order == [] then None
    else
      var id := order[|order| - 1];
      if id in c.cache && Promises(c.store[c.cache[id]], path) then Some(id)
      else FindPromised(c, path, order[..|order| - 1])
  }

  /** A GET answered by the cached stream `id`: it leaves the cache, and gets the command if it has none. */
  function TakeFromCache(c: Connection, cmd: HttpCommand, id: StreamId): Connection
    requires id in c.cache && c.cache[id] < |c.store|
  {
    var (v, bound) := Associate(ViewOf(c, c.cache[id]), cmd);
    var c1 := Put(c, c.cache[id], v).(cache := c.cache - {id},
        hist := c.hist.(consumed := c.hist.consumed + multiset{id}));
    if bound then c1 else Complete(c1, cmd, AlreadyBound)
  }

  function ExecuteGet(c: Connection, cmd: HttpCommand, order: seq<StreamId>): Outcome<Connection>
    requires WellFormed(c)
  {
    match FindPromised(c, FindHeader(":path", cmd.headers), order)
    case None => DoRequest(c, cmd)
    case Some(id) => Ok(TakeFromCache(c, cmd, id))
  }

  datatype Method = Get | PutOrPost | Missing | Unsupported

  function MethodOf(cmd: HttpCommand): Method {
    var verb := FindHeader(":method", cmd.headers);
    if verb == "GET" then Get
    else if verb == "PUT" || verb == "POST" then PutOrPost
    else if verb == "" then Missing
    else Unsupported
  }

  function ByMethod(c: Connection, cmd: HttpCommand, order: seq<StreamId>): Outcome<Connection>
    requires WellFormed(c)
  {
    match MethodOf(cmd)
    case Get => ExecuteGet(c, cmd, order)
    case PutOrPost => DoRequest(c, cmd)
    case Missing => Ok(Complete(c, cmd, MethodMissing))
    case Unsupported => Ok(Complete(c, cmd, MethodNotSupported))
  }

  function CountCommand(c: Connection, cmd: HttpCommand): Connection {
    c.(hist := c.hist.(commands := c.hist.commands + [cmd.id]))
  }

  function ExecuteHttp(c: Connection, cmd: HttpCommand, order: seq<StreamId>): Outcome<Connection>
    requires WellFormed(c)
  {
    ByMethod(CountCommand(c, cmd), cmd, order)
  }

  function ExecutePing(c: Connection, cmd: nat): Connection {
    var c1 := c.(nextPingId := (c.nextPingId + 1) % 0x1_0000_0000_0000_0000,
                 pendingPings := c.pendingPings[c.nextPingId := cmd],
                 hist := c.hist.(pings := c.hist.pings + [cmd]));
    Write(c1, Ping(0, c.nextPingId, false))
  }

  // ---------------------------------------------------------------- incoming frames

  function ApplySettings(c: Connection, settings: map<Setting, u32>): Connection {
    c.(serverFrameSize :=
         if SETTINGS_MAX_FRAME_SIZE in settings then settings[SETTINGS_MAX_FRAME_SIZE] else c.serverFrameSize,
       initialSendWindow :=
         if SETTINGS_INITIAL_WINDOW_SIZE in settings then settings[SETTINGS_INITIAL_WINDOW_SIZE]
         else c.initialSendWindow)
  }

  function HandleSettings(c: Connection, settings: map<Setting, u32>, ack: bool): Connection {
    if ack then ApplySettings(c, settings) else Write(ApplySettings(c, settings), Settings(0, true, map[]))
  }

  function HandlePing(c: Connection, payload: u64, ack: bool): Connection {
    if !ack then Write(c, Ping(0, payload, true))
    else if payload in c.pendingPings then
      c.(pendingPings := c.pendingPings - {payload},
         hist := c.hist.(pongs := c.hist.pongs + [(payload, c.pendingPings[payload])]))
    else c
  }

  function AddConnectionCredit(c: Connection, increment: u32): Connection {
    c.(writer := c.writer.(sendWindow := c.writer.sendWindow + increment),
        hist := c.hist.(credit := c.hist.credit + increment))
  }

  /** ProcessPendingDataFrames for every stream of the map, visited in `order`. */
  function DrainAll(c: Connection, order: seq<StreamId>): Outcome<Connection>
  {
    if order == [] then Ok(c)
    else
      var c1 :- DrainAll(c, order[..|order| - 1]);
      DrainOne(c1, order[|order| - 1])
  }

  function DrainOne(c: Connection, id: StreamId): Outcome<Connection> {
    if id in c.streams && c.streams[id] < |c.store| then
      var v :- ProcessPendingForConnection(ViewOf(c, c.streams[id]));
      Ok(Put(c, c.streams[id], v))
    else Ok(c)
  }

  function HandleForConnection(c: Connection, f: Frame, order: seq<StreamId>): Outcome<Connection>
  {
    match f
    case Settings(_, ack, settings) => Ok(HandleSettings(c, settings, ack))
    case Ping(_, payload, ack) => Ok(HandlePing(c, payload, ack))
    case WindowUpdate(_, increment) => DrainAll(AddConnectionCredit(c, increment), order)
    case GoAway(_, _, _) => Ok(c.(isShutdown := true))
    case _ => Ok(c)
  }

  function ReceiveOn(c: Connection, h: nat, f: Frame): Outcome<Connection>
    requires h < |c.store|
  {
    var v :- ReceiveFrame(ViewOf(c, h), f);
    Ok(Put(c, h, v))
  }

  function AccountConnectionData(c: Connection, size: nat): Connection {
    var left := c.receiveWindow - size;
    var c1 := c.(hist := c.hist.(received := c.hist.received + size));
    if left < RECEIVE_THRESHOLD then
      var diff := INITIAL_WINDOW - left;
      Write(c1.(receiveWindow := left + diff, hist := c1.hist.(refilled := c1.hist.refilled + ToUint32(diff))),
            WindowUpdate(0, ToUint32(diff)))
    else c1.(receiveWindow := left)
  }

  /** The promised stream has received the frame: it is refused, or cached for a later GET. */
  function AfterPromise(c: Connection, f: Frame): Outcome<Connection>
    requires f.PushPromise? && f.promisedStreamId in c.streams && c.streams[f.promisedStreamId] < |c.store|
  {
    var id := f.promisedStreamId;
    if !IsGet(f.headers) then
      var v :- CloseWithError(ViewOf(c, c.streams[id]), REFUSED_STREAM);
      Ok(Put(c, c.streams[id], v))
    else
      Ok(c.(cache := c.cache[id := c.streams[id]], hist := c.hist.(cached := c.hist.cached + multiset{id})))
  }

  function HandlePushPromise(c: Connection, f: Frame): Outcome<Connection>
    requires WellFormed(c) && f.PushPromise?
  {
    if f.streamId !in c.streams || c.store[c.streams[f.streamId]].state !in {Open, HalfClosedLocal} then Ok(c)
    else
      var c1 := GetOrCreate(c, f.promisedStreamId);
      var c2 :- ReceiveOn(c1, c1.streams[f.promisedStreamId], f);
      AfterPromise(c2, f)
  }

  function HandleForStream(c: Connection, f: Frame): Outcome<Connection>
    requires WellFormed(c)
  {
    match f
    case PushPromise(_, _, _, _) => HandlePushPromise(c, f)
    case Data(d) =>
      var c1 := GetOrCreate(AccountConnectionData(c, |d.data|), d.streamId);
      ReceiveOn(c1, c1.streams[d.streamId], f)
    case RstStream(id, _) =>
      var c1 := GetOrCreate(c, id);
      if c1.store[c1.streams[id]].state == Idle then Ok(c1) else ReceiveOn(c1, c1.streams[id], f)
    case _ =>
      var c1 := GetOrCreate(c, f.GetStreamId());
      ReceiveOn(c1, c1.streams[f.GetStreamId()], f)
  }

  function HandleIncoming(c: Connection, f: Frame, order: seq<StreamId>): Outcome<Connection>
    requires WellFormed(c)
  {
    if f.GetStreamId() == 0 then HandleForConnection(c, f, order) else HandleForStream(c, f)
  }
}
