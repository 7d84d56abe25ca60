/**
 What one stream does, as functions on values: a stream and the part of the connection it writes to
 (FlowControlledFrameWriter) go in, the updated pair comes out, or the process crashes.
 */
module StreamSpec {
  import opened Wrappers
  import opened Frames
  import opened StreamState

  datatype HttpCommand = HttpCommand(id: nat, headers: seq<HeaderField>, body: seq<byte>)

  datatype StreamError = ClosedByClient(code: ErrorCode) | ClosedByServer(code: ErrorCode)

  datatype CommandResult =
    | Response(headers: seq<HeaderField>, body: seq<byte>)
    | StreamFailure(error: StreamError)
    | AlreadyBound
    | MethodMissing
    | MethodNotSupported

  datatype Completion = Completion(command: nat, result: CommandResult)

  /** The connection as a stream sees it, with the frames written and the commands completed so far. */
  datatype Writer = Writer(sendWindow: int, log: seq<Frame>, completions: seq<Completion>)

  /** Bookkeeping that the program does not keep: what happened on the stream since it was created. */
  datatype History = History(
    path: seq<State>,               // every state set, starting with Idle
    upload: seq<byte>,              // the request body
    submitted: seq<DataFrame>,      // DATA frames handed to SendFrame
    written: seq<DataFrame>,        // DATA frames written
    credit: nat,                    // sum of the WINDOW_UPDATE increments received
    received: nat,                  // DATA bytes accounted
    refilled: nat,                  // sum of the WINDOW_UPDATE increments sent
    silentClose: bool               // closed by a DATA frame that the connection-level drain sent
  )

  datatype Stream = Stream(
    id: StreamId,
    state: State,
    requestHeaders: seq<HeaderField>,
    responseHeaders: seq<HeaderField>,
    responseBody: seq<byte>,
    err: Option<StreamError>,
    command: Option<HttpCommand>,
    initialSendWindow: int,
    sendWindow: int,
    initialReceiveWindow: int,
    receiveWindow: int,
    pending: seq<DataFrame>,
    hist: History)

  datatype View = View(s: Stream, w: Writer)

  const RECEIVE_THRESHOLD := 0x4000 // 2 << 13, the size of one frame

  function New(id: StreamId, command: Option<HttpCommand>, upload: seq<byte>, sendWindow: u32,
      receiveWindow: u32): Stream {
    Stream(id, Idle, [], [], [], None, command, sendWindow, sendWindow, receiveWindow, receiveWindow, [],
           History([Idle], upload, [], [], 0, 0, 0, false))
  }

  function SetStates(s: Stream, sets: seq<State>): Stream {
    s.(state := LastOf(s.state, sets), hist := s.hist.(path := s.hist.path + sets))
  }

  function WriteFrame(w: Writer, f: Frame): Writer {
    w.(log := w.log + [f])
  }

  predicate Fits(v: View, size: int) {
    v.s.sendWindow > size && v.w.sendWindow > size
  }

  function Finalize(s: Stream, w: Writer): Writer {
    match s.command
    case None => w
    case Some(cmd) =>
      var result := match s.err
                    case Some(e) => StreamFailure(e)
                    case None => Response(s.responseHeaders, s.responseBody);
      w.(completions := w.completions + [Completion(cmd.id, result)])
  }

  /** The check at the end of SendFrame and ReceiveFrame. */
  function FinalizeIfNewlyClosed(before: Stream, v: View): View {
    if v.s.state == Closed && before.state != Closed then v.(w := Finalize(v.s, v.w)) else v
  }

  function SendData(v: View, d: DataFrame, firstInQueue: bool): Outcome<View> {
    if firstInQueue && Fits(v, |d.data|) then
      var sets :- Outgoing(v.s.state, Data(d));
      var s := v.s.(sendWindow := v.s.sendWindow - |d.data|, hist := v.s.hist.(written := v.s.hist.written + [d]));
      Ok(View(SetStates(s, sets), WriteFrame(v.w.(sendWindow := v.w.sendWindow - |d.data|), Data(d))))
    else
      Ok(v.(s := v.s.(pending := v.s.pending + [d])))
  }

  function Submit(s: Stream, d: DataFrame): Stream {
    s.(hist := s.hist.(submitted := s.hist.submitted + [d]))
  }

  function SendFrame(v: View, f: Frame): Outcome<View> {
    if f.Data? then
      var v1 :- SendData(v.(s := Submit(v.s, f.frame)), f.frame, v.s.pending == []);
      Ok(FinalizeIfNewlyClosed(v.s, v1))
    else
      var sets :- Outgoing(v.s.state, f);
      var s := if f.Headers? then v.s.(requestHeaders := v.s.requestHeaders + f.headers) else v.s;
      Ok(FinalizeIfNewlyClosed(v.s, View(SetStates(s, sets), WriteFrame(v.w, f))))
  }

  function CloseWithError(v: View, code: ErrorCode): Outcome<View> {
    if v.s.state == Closed then Ok(v)
    else SendFrame(v.(s := v.s.(err := Some(ClosedByClient(code)))), RstStream(v.s.id, code))
  }

  function ProcessPending(v: View): Outcome<View>
    decreases |v.s.pending|
  {
    if v.s.pending == [] || !Fits(v, |v.s.pending[0].data|) then Ok(v)
    else
      var v1 :- SendData(v.(s := v.s.(pending := v.s.pending[1..])), v.s.pending[0], true);
      ProcessPending(v1)
  }

  /** A note that the stream closed between the two views. */
  function Silenced(v: View, v1: View): View {
    var silent := v.s.hist.silentClose || (v.s.state != Closed && v1.s.state == Closed);
    v1.(s := v1.s.(hist := v1.s.hist.(silentClose := silent)))
  }

  /** ProcessPendingDataFrames as the connection calls it: nothing checks afterwards whether the stream closed. */
  function ProcessPendingForConnection(v: View): Outcome<View> {
    var v1 :- ProcessPending(v);
    Ok(Silenced(v, v1))
  }

  /** Account received bytes; refill the receive window when less than one frame is left. */
  function AccountData(v: View, size: nat): Outcome<View> {
    var left := v.s.receiveWindow - size;
    var s := v.s.(hist := v.s.hist.(received := v.s.hist.received + size));
    if left < RECEIVE_THRESHOLD then
      var diff := v.s.initialReceiveWindow - left;
      var s := s.(receiveWindow := left + diff, hist := s.hist.(refilled := s.hist.refilled + ToUint32(diff)));
      SendFrame(v.(s := s), WindowUpdate(s.id, ToUint32(diff)))
    else
      Ok(v.(s := s.(receiveWindow := left)))
  }

  function ReceiveData(v: View, d: DataFrame): Outcome<View> {
    var v1 :- AccountData(v, |d.data|);
    Ok(v1.(s := v1.s.(responseBody := v1.s.responseBody + d.data)))
  }

  function AddCredit(s: Stream, increment: u32): Stream {
    s.(sendWindow := s.sendWindow + increment, hist := s.hist.(credit := s.hist.credit + increment))
  }

  /** The handler of an accepted frame, once the state has been set. */
  function Dispatch(v: View, f: Frame): Outcome<View> {
    match f
    case Data(d) => ReceiveData(v, d)
    case Headers(_, _, endHeaders, _, headers) =>
      if !endHeaders then CloseWithError(v, REFUSED_STREAM)
      else Ok(v.(s := v.s.(responseHeaders := v.s.responseHeaders + headers)))
    case RstStream(_, code) => Ok(v.(s := v.s.(err := Some(ClosedByServer(code)))))
    case PushPromise(_, endHeaders, _, headers) =>
      if !endHeaders then CloseWithError(v, REFUSED_STREAM)
      else Ok(v.(s := v.s.(requestHeaders := v.s.requestHeaders + headers)))
    case WindowUpdate(_, increment) => ProcessPending(v.(s := AddCredit(v.s, increment)))
    case _ => Ok(v)
  }

  function ReceiveFrame(v: View, f: Frame): Outcome<View> {
    match Incoming(v.s.state, f)
    case None => CloseWithError(v, STREAM_CLOSED)
    case Some(sets) =>
      var v1 :- Dispatch(v.(s := SetStates(v.s, sets)), f);
      Ok(FinalizeIfNewlyClosed(v.s, v1))
  }

  /** AssociateWithCommand; `bound` is false when the stream already has a command. */
  function Associate(v: View, cmd: HttpCommand): (r: (View, bool)) {
    if v.s.command.Some? then (v, false)
    else
      var s := v.s.(command := Some(cmd));
      (View(s, if s.state == Closed then Finalize(s, v.w) else v.w), true)
  }
}
