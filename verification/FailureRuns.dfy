/** Runs of a few events, from a new connection on, in which the client breaks what it is meant to keep. */
module FailureRuns {
  import opened Wrappers
  import opened Frames
  import opened StreamState
  import opened StreamSpec
  import opened ConnectionSpec
  import opened RequestLemmas
  import opened Runs
  import opened CompletionTheorems
  import SL = StreamLemmas

  // ---------------------------------------------------------------- the first steps of a run

  /** Nothing has happened but settings. */
  predicate Unused(c: Connection) {
    && c.store == [] && c.streams == map[] && c.cache == map[] && c.hist.issuedIds == []
    && c.writer.sendWindow == INITIAL_WINDOW && c.writer.completions == []
  }

  /** The client has one stream, `s`, with id 1, and has completed nothing. */
  predicate Single(c: Connection, s: Stream) {
    && c.store == [s] && s.id == 1 && c.streams == map[1 := 0] && c.cache == map[]
    && c.writer.completions == []
  }

  function Receives(f: Frame): Input {
    Input(Received(f), [])
  }

  /** The settings that the server sends first. */
  function Announces(frameSize: u32, window: u32): Input {
    Receives(Settings(0, true, map[SETTINGS_MAX_FRAME_SIZE := frameSize, SETTINGS_INITIAL_WINDOW_SIZE := window]))
  }

  lemma SettingsStep(frameSize: u32, window: u32) returns (c: Connection)
    ensures StepTo(NewConnection(), Announces(frameSize, window), c) && WellFormed(c) && Unused(c)
    ensures c.serverFrameSize == frameSize && c.initialSendWindow == window && c.initialReceiveWindow == INITIAL_WINDOW
  {
    c := Step(NewConnection(), Announces(frameSize, window)).value;
  }

  /** The stream of the first request, before it has sent anything. */
  function FirstView(c: Connection, cmd: HttpCommand): View {
    View(New(1, Some(cmd), cmd.body, c.initialSendWindow, c.initialReceiveWindow), c.writer)
  }

  lemma FirstRequest(c: Connection, cmd: HttpCommand)
    requires WellFormed(c) && Unused(c) && MethodOf(cmd) in {Get, PutOrPost}
    ensures Legal(c, Input(Http(cmd), []))
    ensures match SendRequest(FirstView(c, cmd), cmd, c.serverFrameSize)
            case Crash(kind) => Step(c, Input(Http(cmd), [])) == Crash(kind)
            case Ok(v) => FirstState(c, cmd, v, Step(c, Input(Http(cmd), [])))
  {
    hide SendRequest, MethodOf;
    var n := CountCommand(c, cmd);
    var c1 := NewStream(n, cmd);
    assert c1.store == [New(1, Some(cmd), cmd.body, c.initialSendWindow, c.initialReceiveWindow)];
    assert ViewOf(c1, 0) == FirstView(c, cmd);
    assert FindPromised(n, FindHeader(":path", cmd.headers), []) == None by { hide FindHeader; }
  }

  predicate FirstState(c: Connection, cmd: HttpCommand, v: View, r: Outcome<Connection>) {
    && r.Ok? && r.value.store == [v.s] && r.value.streams == map[1 := 0] && r.value.cache == map[]
        && r.value.writer == v.w
  }

  lemma FirstStateIsSingle(c: Connection, cmd: HttpCommand, v: View) returns (c': Connection)
    requires WellFormed(c) && Unused(c) && MethodOf(cmd) in {Get, PutOrPost}
    requires SendRequest(FirstView(c, cmd), cmd, c.serverFrameSize) == Ok(v) && v.s.id == 1 && v.w.completions == []
    ensures StepTo(c, Input(Http(cmd), []), c') && WellFormed(c') && Single(c', v.s) && c'.writer == v.w
  {
    hide SendRequest, Step, Legal;
    FirstRequest(c, cmd);
    c' := Step(c, Input(Http(cmd), [])).value;
  }

  // ---------------------------------------------------------------- a body that waits

  /** The stream of a request whose body fits one frame but none of the windows, or not both. */
  function Waiting(cmd: HttpCommand, window: u32, receiveWindow: u32): Stream {
    var d := DataFrame(1, cmd.body, true);
    New(1, Some(cmd), cmd.body, window, receiveWindow)
      .(state := Open, requestHeaders := cmd.headers, pending := [d],
        hist := History([Idle, Open], cmd.body, [d], [], 0, 0, 0, false))
  }

  lemma OneChunk(body: seq<byte>, frameSize: u32)
    requires 0 < |body| <= frameSize
    ensures Chunks(1, body, frameSize, 0) == Ok([DataFrame(1, body, true)])
  {
    assert ToUint32(0 * frameSize) == 0 && ToUint32(0 + 1) == 1 && ToUint32(1 * frameSize) == frameSize;
    assert ToUint32(|body|) == |body| && body[0..|body|] == body;
    assert Chunks(1, body, frameSize, 1) == Ok([]);
    assert [DataFrame(1, body, true)] + [] == [DataFrame(1, body, true)];
  }

  lemma WaitingAfterRequest(c: Connection, cmd: HttpCommand)
    requires 0 < |cmd.body| <= c.serverFrameSize
    requires c.initialSendWindow <= |cmd.body| || c.writer.sendWindow <= |cmd.body|
    ensures SendRequest(FirstView(c, cmd), cmd, c.serverFrameSize) ==
            Ok(View(Waiting(cmd, c.initialSendWindow, c.initialReceiveWindow),
                WriteFrame(c.writer, RequestHeaders(1, cmd))))
  {
    var v := FirstView(c, cmd);
    var s := Waiting(cmd, c.initialSendWindow, c.initialReceiveWindow);
    var v1 := SendFrame(v, RequestHeaders(1, cmd)).value;
    assert [] + cmd.headers == cmd.headers && v1.s.hist.path == [Idle, Open];
    var d := DataFrame(1, cmd.body, true);
    OneChunk(cmd.body, c.serverFrameSize);
    assert [] + [d] == [d];
    assert SendData(v1.(s := Submit(v1.s, d)), d, true) == Ok(View(s, v1.w));
    assert SendFrame(v1, Data(d)) == Ok(View(s, v1.w));
    assert SendAll(v1, [d]) == SendAll(View(s, v1.w), [d][1..]);
  }

  // ---------------------------------------------------------------- reset, then credit

  /** Settings with a window of 0, a POST, which waits, RST_STREAM, and then credit: the client panics. */
  lemma ResetThenCreditPanics(cmd: HttpCommand) returns (states: seq<Connection>, inputs: seq<Input>, next: Input)
    requires MethodOf(cmd) == PutOrPost && 0 < |cmd.body| < INITIAL_FRAME_SIZE
    ensures IsRun(states, inputs) && WellFormed(states[|inputs|]) && Legal(states[|inputs|], next)
    ensures Step(states[|inputs|], next) == Crash(IllegalStreamState)
  {
    hide Step, Waiting, WellFormed, StepTo, NewConnection, MethodOf, SendRequest, Unused, Single, IsRun;
    var i0, i1, i2 := Announces(INITIAL_FRAME_SIZE, 0), Input(Http(cmd), []), Receives(RstStream(1, NO_ERROR));
    var c1 := SettingsStep(INITIAL_FRAME_SIZE, 0);
    WaitingAfterRequest(c1, cmd);
    var v := View(Waiting(cmd, 0, c1.initialReceiveWindow), WriteFrame(c1.writer, RequestHeaders(1, cmd)));
    UnusedWrites(c1, cmd);
    var c2 := FirstStateIsSingle(c1, cmd, v);
    var c3 := ResetKeepsQueue(cmd, c2);
    next := Receives(WindowUpdate(1, INITIAL_FRAME_SIZE));
    CreditPanics(cmd, c3);
    RunBegins(i0, c1);
    RunGoesOn([NewConnection(), c1], [i0], i1, c2);
    RunGoesOn([NewConnection(), c1] + [c2], [i0] + [i1], i2, c3);
    states, inputs := [NewConnection(), c1] + [c2] + [c3], [i0] + [i1] + [i2];
  }

  lemma UnusedWrites(c: Connection, cmd: HttpCommand)
    requires Unused(c)
    ensures Waiting(cmd, c.initialSendWindow, c.initialReceiveWindow).id == 1
    ensures WriteFrame(c.writer, RequestHeaders(1, cmd)).completions == []
    ensures WriteFrame(c.writer, RequestHeaders(1, cmd)).sendWindow == c.writer.sendWindow == INITIAL_WINDOW
  {
  }

  lemma ResetKeepsQueue(cmd: HttpCommand, c: Connection) returns (c': Connection)
    requires WellFormed(c) && Single(c, Waiting(cmd, 0, INITIAL_WINDOW)) && c.writer.sendWindow == INITIAL_WINDOW
    ensures StepTo(c, Receives(RstStream(1, NO_ERROR)), c') && WellFormed(c')
    ensures c'.streams == map[1 := 0] && |c'.store| == 1 && c'.writer.sendWindow == INITIAL_WINDOW
    ensures var s := c'.store[0];
            s.state == Closed && s.sendWindow == 0 && s.pending == [DataFrame(1, cmd.body, true)]
  {
    c' := Step(c, Receives(RstStream(1, NO_ERROR))).value;
  }

  lemma CreditPanics(cmd: HttpCommand, c: Connection)
    requires WellFormed(c) && |c.store| == 1 && c.streams == map[1 := 0] && c.writer.sendWindow == INITIAL_WINDOW
    requires var s := c.store[0]; s.state == Closed && s.sendWindow == 0 && s.pending == [DataFrame(1, cmd.body, true)]
    requires 0 < |cmd.body| < INITIAL_FRAME_SIZE
    ensures Legal(c, Receives(WindowUpdate(1, INITIAL_FRAME_SIZE)))
    ensures Step(c, Receives(WindowUpdate(1, INITIAL_FRAME_SIZE))) == Crash(IllegalStreamState)
  {
    assert ProcessPending(SL.Credited(ViewOf(c, 0), WindowUpdate(1, INITIAL_FRAME_SIZE))) == Crash(IllegalStreamState);
  }

  // ---------------------------------------------------------------- a header block cut short

  /** A request without a body, then HEADERS without END_HEADERS: the command is completed twice. */
  lemma CutHeadersCompleteTwice(cmd: HttpCommand) returns (states: seq<Connection>, inputs: seq<Input>)
    requires MethodOf(cmd) in {Get, PutOrPost} && cmd.body == []
    ensures IsRun(states, inputs) && |states| == 3
    ensures Count(states[2].writer.completions, cmd.id) == 2
  {
    hide Step, WellFormed, StepTo, NewConnection, MethodOf, SendRequest, Unused, Single, IsRun, Count;
    var i0, i1 := Input(Http(cmd), []), Receives(Headers(1, false, false, false, []));
    NothingHappened();
    var v := SentHeaders(NewConnection(), cmd);
    var c1 := FirstStateIsSingle(NewConnection(), cmd, v);
    var c2 := CutHeaders(c1, v.s, cmd);
    RunBegins(i0, c1);
    RunGoesOn([NewConnection(), c1], [i0], i1, c2);
    states, inputs := [NewConnection(), c1] + [c2], [i0] + [i1];
  }

  lemma NothingHappened()
    ensures Unused(NewConnection()) && WellFormed(NewConnection())
  {
  }

  lemma SentHeaders(c: Connection, cmd: HttpCommand) returns (v: View)
    requires Unused(c) && cmd.body == []
    ensures SendRequest(FirstView(c, cmd), cmd, c.serverFrameSize) == Ok(v)
    ensures v.s.id == 1 && v.s.state == HalfClosedLocal && v.s.command == Some(cmd) && v.w.completions == []
    ensures v.s.requestHeaders == cmd.headers
  {
    v := SendRequest(FirstView(c, cmd), cmd, c.serverFrameSize).value;
    assert [] + cmd.headers == cmd.headers;
  }

  lemma CutHeaders(c: Connection, s: Stream, cmd: HttpCommand) returns (c': Connection)
    requires WellFormed(c) && Single(c, s) && s.state == HalfClosedLocal && s.command == Some(cmd)
    ensures StepTo(c, Receives(Headers(1, false, false, false, [])), c')
    ensures Count(c'.writer.completions, cmd.id) == 2
  {
    c' := Step(c, Receives(Headers(1, false, false, false, []))).value;
    var cs := c'.writer.completions;
    assert |cs| == 2 && cs[0].command == cmd.id && cs[1].command == cmd.id;
    hide Step;
    CountTwo(cs, cmd.id);
  }

  lemma CountTwo(cs: seq<Completion>, id: nat)
    requires |cs| == 2 && cs[0].command == cs[1].command == id
    ensures Count(cs, id) == 2
  {
    assert cs[..1][..0] == [];
    assert Count(cs[..1], id) == 1;
  }

  // ---------------------------------------------------------------- a promise on the client's own stream

  /**
   A request without a body, then the promise of a GET under the id of that request: the stream is closed, and cached
   under the client's own request headers, whatever the promise said.
   */
  lemma OwnStreamIsCached(cmd: HttpCommand, headers: seq<HeaderField>)
      returns (states: seq<Connection>, inputs: seq<Input>)
    requires MethodOf(cmd) in {Get, PutOrPost} && cmd.body == [] && FindHeader(":method", headers) == "GET"
    ensures IsRun(states, inputs) && |states| == 3
    ensures inputs[1].event == Received(PushPromise(1, true, 1, headers))
    ensures states[2].cache == map[1 := 0] && |states[2].store| == 1
    ensures states[2].store[0].requestHeaders == cmd.headers && states[2].store[0].state == Closed
  {
    hide Step, WellFormed, StepTo, NewConnection, MethodOf, SendRequest, Unused, Single, IsRun;
    var i0, i1 := Input(Http(cmd), []), Receives(PushPromise(1, true, 1, headers));
    NothingHappened();
    var v := SentHeaders(NewConnection(), cmd);
    var c1 := FirstStateIsSingle(NewConnection(), cmd, v);
    var c2 := PromiseOfOwn(c1, v.s, headers);
    RunBegins(i0, c1);
    RunGoesOn([NewConnection(), c1], [i0], i1, c2);
    states, inputs := [NewConnection(), c1] + [c2], [i0] + [i1];
  }

  lemma PromiseOfOwn(c: Connection, s: Stream, headers: seq<HeaderField>) returns (c': Connection)
    requires WellFormed(c) && Single(c, s) && s.state == HalfClosedLocal && FindHeader(":method", headers) == "GET"
    ensures StepTo(c, Receives(PushPromise(1, true, 1, headers)), c')
    ensures c'.cache == map[1 := 0] && |c'.store| == 1
    ensures c'.store[0].requestHeaders == s.requestHeaders && c'.store[0].state == Closed
  {
    hide FindHeader;
    c' := Step(c, Receives(PushPromise(1, true, 1, headers))).value;
  }

  // ---------------------------------------------------------------- closed by the connection-level drain

  const WHOLE_WINDOW: u32 := INITIAL_WINDOW

  /**
   A POST as long as the connection window is wide, which therefore waits, then the whole response, and then one byte of
   credit for the connection: the stream is closed and its command is not completed.
   */
  lemma DrainClosesInSilence(cmd: HttpCommand) returns (states: seq<Connection>, inputs: seq<Input>)
    requires MethodOf(cmd) == PutOrPost && |cmd.body| == WHOLE_WINDOW
    ensures IsRun(states, inputs) && |states| == 5 && |states[4].store| == 1
    ensures var s := states[4].store[0];
            && s.command == Some(cmd) && s.state == Closed && s.hist.silentClose
            && Count(states[4].writer.completions, cmd.id) == 0
  {
    hide Step, Waiting, WellFormed, StepTo, NewConnection, MethodOf, SendRequest, Unused, Single, IsRun, Count;
    var i0, i1 := Announces(WHOLE_WINDOW, 100_000), Input(Http(cmd), []);
    var i2, i3 := Receives(Headers(1, true, true, false, [])), Input(Received(WindowUpdate(0, 1)), [1]);
    var c1 := SettingsStep(WHOLE_WINDOW, 100_000);
    UnusedWrites(c1, cmd);
    WaitingAfterRequest(c1, cmd);
    var v := View(Waiting(cmd, 100_000, c1.initialReceiveWindow), WriteFrame(c1.writer, RequestHeaders(1, cmd)));
    var c2 := FirstStateIsSingle(c1, cmd, v);
    var c3 := ResponseWhileWaiting(cmd, c1.initialReceiveWindow, c2);
    var c4 := LastByteOfCredit(cmd, c3.store[0], c3);
    RunBegins(i0, c1);
    RunGoesOn([NewConnection(), c1], [i0], i1, c2);
    RunGoesOn([NewConnection(), c1] + [c2], [i0] + [i1], i2, c3);
    RunGoesOn([NewConnection(), c1] + [c2] + [c3], [i0] + [i1] + [i2], i3, c4);
    states, inputs := [NewConnection(), c1] + [c2] + [c3] + [c4], [i0] + [i1] + [i2] + [i3];
  }

  lemma ResponseWhileWaiting(cmd: HttpCommand, receiveWindow: u32, c: Connection) returns (c': Connection)
    requires WellFormed(c) && Single(c, Waiting(cmd, 100_000, receiveWindow)) && c.writer.sendWindow == INITIAL_WINDOW
    ensures StepTo(c, Receives(Headers(1, true, true, false, [])), c') && WellFormed(c')
    ensures |c'.store| == 1 && Single(c', c'.store[0]) && c'.writer.sendWindow == INITIAL_WINDOW
    ensures var s := c'.store[0];
            && s.command == Some(cmd) && s.state == HalfClosedRemote && s.sendWindow == 100_000 && !s.hist.silentClose
            && s.pending == [DataFrame(1, cmd.body, true)]
  {
    c' := Step(c, Receives(Headers(1, true, true, false, []))).value;
  }

  lemma LastByteOfCredit(cmd: HttpCommand, s: Stream, c: Connection) returns (c': Connection)
    requires WellFormed(c) && Single(c, s) && c.writer.sendWindow == INITIAL_WINDOW && |cmd.body| == WHOLE_WINDOW
    requires s.command == Some(cmd) && s.state == HalfClosedRemote && s.sendWindow == 100_000
    requires s.pending == [DataFrame(1, cmd.body, true)]
    ensures StepTo(c, Input(Received(WindowUpdate(0, 1)), [1]), c') && |c'.store| == 1
    ensures c'.store[0].command == Some(cmd) && c'.store[0].state == Closed && c'.store[0].hist.silentClose
    ensures Count(c'.writer.completions, cmd.id) == 0
  {
    var c1 := AddConnectionCredit(c, 1);
    var v := ViewOf(c1, 0);
    var v1 := SendData(v.(s := v.s.(pending := v.s.pending[1..])), v.s.pending[0], true).value;
    assert ProcessPending(v1) == Ok(v1);
    assert ProcessPending(v) == Ok(v1) && v1.s.state == Closed;
    hide ProcessPending;
    assert [1][..0] == [] && DrainAll(c1, []) == Ok(c1);
    c' := DrainOne(c1, 1).value;
    assert DrainAll(c1, [1]) == Ok(c');
    hide DrainAll, DrainOne;
  }

  // ---------------------------------------------------------------- bodies that cannot be cut

  /**
   Settings with any frame size, and a request with any body below 2^32 bytes: the process ends at once, in an endless
   loop for frame size 0 and in a panic otherwise, exactly when the body cannot be cut.
   */
  lemma UncuttableBodyEndsTheRun(cmd: HttpCommand, frameSize: u32)
      returns (states: seq<Connection>, inputs: seq<Input>, next: Input)
    requires MethodOf(cmd) == PutOrPost && 0 < |cmd.body| < UINT32
    ensures IsRun(states, inputs) && WellFormed(states[|inputs|]) && Legal(states[|inputs|], next)
    ensures Step(states[|inputs|], next).Crash? <==> !Cuttable(|cmd.body|, frameSize)
    ensures Step(states[|inputs|], next).Crash? ==>
              Step(states[|inputs|], next) == Crash(if frameSize == 0 then EndlessLoop else SliceOutOfRange)
  {
    hide Step, WellFormed, StepTo, NewConnection, MethodOf, SendRequest, Unused, IsRun, Cuttable, Legal;
    var c1 := SettingsStep(frameSize, INITIAL_WINDOW);
    RunBegins(Announces(frameSize, INITIAL_WINDOW), c1);
    states, inputs := [NewConnection(), c1], [Announces(frameSize, INITIAL_WINDOW)];
    next := Input(Http(cmd), []);
    FirstRequest(c1, cmd);
    FirstOutcome(c1, cmd);
  }

  lemma FirstOutcome(c: Connection, cmd: HttpCommand)
    requires 0 < |cmd.body| < UINT32
    ensures var r := SendRequest(FirstView(c, cmd), cmd, c.serverFrameSize);
            && (r.Crash? <==> !Cuttable(|cmd.body|, c.serverFrameSize))
            && (r.Crash? ==> r == Crash(if c.serverFrameSize == 0 then EndlessLoop else SliceOutOfRange))
  {
    var v := FirstView(c, cmd);
    NewStreamValid(1, Some(cmd), cmd.body, c.initialSendWindow, c.initialReceiveWindow, c.writer);
    SendRequestKeeps(v, cmd, c.serverFrameSize);
    CuttingIsExact(1, cmd.body, c.serverFrameSize);
    IdleMaySend(v, cmd);
    hide SendFrame, Chunks, SendAll, Cuttable, ReadyToSend, SL.Evolves;
  }

  lemma IdleMaySend(v: View, cmd: HttpCommand)
    requires v.s.state == Idle
    ensures SendFrame(v, RequestHeaders(v.s.id, cmd)).Ok?
    ensures SendFrame(v, RequestHeaders(v.s.id, cmd)).value.s.id == v.s.id
  {
  }
}
