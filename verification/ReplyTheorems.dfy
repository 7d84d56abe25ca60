/**
 What the client answers and what it tells its commands, event by event. The frames it writes, the states, the error
 codes and the completions are written out here, without the functions that compute them.
 */
module ReplyTheorems {
  import opened Wrappers
  import opened Frames
  import opened StreamState
  import opened StreamSpec
  import opened ConnectionSpec
  import opened Runs
  import opened Actions
  import SL = StreamLemmas

  // ---------------------------------------------------------------- one stream, one frame

  /** The stream is not closed, and its state does not allow the frame. */
  predicate Forbidden(st: State, f: Frame) {
    || (f.Data? && st in {Idle, ReservedRemote, HalfClosedRemote})
    || (f.Headers? && st == HalfClosedRemote)
    || (f.PushPromise? && st in {ReservedRemote, Open, HalfClosedRemote, HalfClosedLocal})
  }

  /** END_STREAM on HEADERS closes the stream by itself. */
  predicate EndsResponse(st: State, endStream: bool) {
    endStream && st in {HalfClosedLocal, ReservedRemote}
  }

  /** The state after a frame that is not WINDOW_UPDATE. */
  function StateAfter(st: State, f: Frame): State {
    if st == Closed || Forbidden(st, f) then Closed
    else match f
      case Data(d) => if !d.endStream then st else if st == Open then HalfClosedRemote else Closed
      case Headers(_, endStream, endHeaders, _, _) =>
        if !endHeaders || EndsResponse(st, endStream) then Closed
        else if st == ReservedRemote then HalfClosedLocal
        else if endStream && st == Open then HalfClosedRemote
        else st
      case RstStream(_, _) => Closed
      case PushPromise(_, endHeaders, _, _) => if endHeaders then ReservedRemote else Closed
      case _ => st
  }

  /**
   The frames that the stream writes in answer: RST_STREAM with STREAM_CLOSED (5) or REFUSED_STREAM (7), or credit.
   */
  function Reply(s: Stream, f: Frame): seq<Frame> {
    if s.state == Closed then []
    else if Forbidden(s.state, f) then [RstStream(s.id, 5)]
    else match f
      case Data(d) =>
        var left := s.receiveWindow - |d.data|;
        if left < 16384 then [WindowUpdate(s.id, (s.initialReceiveWindow - left) % 0x1_0000_0000)] else []
      case Headers(_, endStream, endHeaders, _, _) =>
        if endHeaders || EndsResponse(s.state, endStream) then [] else [RstStream(s.id, 7)]
      case PushPromise(_, endHeaders, _, _) => if endHeaders then [] else [RstStream(s.id, 7)]
      case _ => []
  }

  /** What the command of the stream, if it has one, is told. */
  function Results(s: Stream, f: Frame): seq<CommandResult> {
    if s.state == Closed then []
    else if Forbidden(s.state, f) then [StreamFailure(ClosedByClient(5))]
    else match f
      case Data(d) =>
        if d.endStream && s.state == HalfClosedLocal then [Response(s.responseHeaders, s.responseBody + d.data)] else []
      case Headers(_, endStream, endHeaders, _, headers) =>
        if EndsResponse(s.state, endStream)
        then [Response(s.responseHeaders + (if endHeaders then headers else []), s.responseBody)]
        else if endHeaders then []
        else [StreamFailure(ClosedByClient(7)), StreamFailure(ClosedByClient(7))]
      case RstStream(_, code) => [StreamFailure(ClosedByServer(code))]
      case PushPromise(_, endHeaders, _, _) =>
        if endHeaders then [] else [StreamFailure(ClosedByClient(7)), StreamFailure(ClosedByClient(7))]
      case _ => []
  }

  function Verdicts(s: Stream, results: seq<CommandResult>): seq<Completion> {
    match s.command
    case None => []
    case Some(cmd) => seq(|results|, k requires 0 <= k < |results| => Completion(cmd.id, results[k]))
  }

  /** Why the stream has been given up, if it has. */
  function ErrorAfter(s: Stream, f: Frame): Option<StreamError> {
    if s.state == Closed then if f.RstStream? then Some(ClosedByServer(f.errorCode)) else s.err
    else if Forbidden(s.state, f) then Some(ClosedByClient(5))
    else match f
      case Headers(_, endStream, endHeaders, _, _) =>
        if endHeaders || EndsResponse(s.state, endStream) then s.err else Some(ClosedByClient(7))
      case RstStream(_, code) => Some(ClosedByServer(code))
      case PushPromise(_, endHeaders, _, _) => if endHeaders then s.err else Some(ClosedByClient(7))
      case _ => s.err
  }

  /** An open stream has no error yet. */
  predicate NotGivenUp(s: Stream) {
    s.state != Closed ==> s.err.None?
  }

  /** The client gives a stream up: RST_STREAM goes out and the command is told why. */
  lemma ClosingTells(v: View, code: ErrorCode)
    requires SL.Valid(v.s)
    ensures CloseWithError(v, code).Ok?
    ensures var v' := CloseWithError(v, code).value;
            if v.s.state == Closed then v' == v
            else
              && v'.w == v.w.(log := v.w.log + [RstStream(v.s.id, code)],
                              completions := v.w.completions + Verdicts(v.s, [StreamFailure(ClosedByClient(code))]))
              && v'.s == v.s.(state := Closed, err := Some(ClosedByClient(code)), hist := v'.s.hist)
  {
    if v.s.state != Closed {
      var v0 := v.(s := v.s.(err := Some(ClosedByClient(code))));
      SL.SendControlFrameKeeps(v0, RstStream(v.s.id, code));
      assert v0.s.command == v.s.command;
    }
    hide SL.Valid, SL.Evolves, Finalize;
  }

  /** The frame gets through to its handler: the stream is open for it, and its header block is complete. */
  predicate GetsThrough(s: Stream, f: Frame) {
    s.state != Closed && !Forbidden(s.state, f) && !SL.EndsBlockEarly(f)
  }

  /** The stream after a frame that is not WINDOW_UPDATE. */
  function StreamAfter(s: Stream, f: Frame): Stream {
    var s1 := s.(state := StateAfter(s.state, f), err := ErrorAfter(s, f));
    if !GetsThrough(s, f) then s1
    else match f
      case Data(d) =>
        var left := s.receiveWindow - |d.data|;
        s1.(responseBody := s.responseBody + d.data,
            receiveWindow := if left < 16384 then s.initialReceiveWindow else left)
      case Headers(_, _, _, _, headers) => s1.(responseHeaders := s.responseHeaders + headers)
      case PushPromise(_, _, _, headers) => s1.(requestHeaders := s.requestHeaders + headers)
      case _ => s1
  }

  /** Log, completions and stream after a frame that is not WINDOW_UPDATE. */
  predicate Answered(v: View, f: Frame, v': View) {
    && v'.w == v.w.(log := v.w.log + Reply(v.s, f), completions := v.w.completions + Verdicts(v.s, Results(v.s, f)))
    && v'.s == StreamAfter(v.s, f).(hist := v'.s.hist)
  }

  lemma NothingTold(s: Stream)
    ensures Verdicts(s, []) == []
  {
  }

  /** A closed stream only notes that the server resets it again. */
  lemma ClosedAnswers(v: View, f: Frame)
    requires SL.Valid(v.s) && v.s.state == Closed && !f.WindowUpdate?
    ensures ReceiveFrame(v, f).Ok? && Answered(v, f, ReceiveFrame(v, f).value)
  {
    NothingTold(v.s);
    hide SL.Valid;
  }

  lemma ForbiddenAnswers(v: View, f: Frame)
    requires SL.Valid(v.s) && Forbidden(v.s.state, f)
    ensures ReceiveFrame(v, f).Ok? && Answered(v, f, ReceiveFrame(v, f).value)
  {
    assert Incoming(v.s.state, f).None?;
    ClosingTells(v, 5);
    hide SL.Valid, CloseWithError, Verdicts;
  }

  /** The state has accepted the frame, and its handler comes next. */
  lemma Arrives(v: View, f: Frame) returns (v1: View)
    requires SL.Valid(v.s) && Incoming(v.s.state, f).Some?
    ensures SL.Valid(v1.s) && v1.w == v.w
    ensures v1.s == v.s.(state := LastOf(v.s.state, Incoming(v.s.state, f).value), hist := v1.s.hist)
    ensures Dispatch(v1, f).Ok? ==> ReceiveFrame(v, f) == Ok(FinalizeIfNewlyClosed(v.s, Dispatch(v1, f).value))
  {
    hide SL.Valid, FinalizeIfNewlyClosed, Dispatch, Incoming;
    v1 := v.(s := SetStates(v.s, Incoming(v.s.state, f).value));
    SL.IncomingValid(v.s, f);
  }

  lemma DataAnswers(v: View, f: Frame)
    requires SL.Valid(v.s) && f.Data? && v.s.state in {Open, HalfClosedLocal} && NotGivenUp(v.s)
    ensures ReceiveFrame(v, f).Ok? && Answered(v, f, ReceiveFrame(v, f).value)
  {
    hide SL.Valid, FinalizeIfNewlyClosed, Dispatch, ReceiveFrame, Verdicts;
    var v1 := Arrives(v, f);
    DataAccounted(v1, f.frame);
    var v2 := Dispatch(v1, f).value;
    FinalizingTells(v.s, v2);
    DataTold(v, f, v2, FinalizeIfNewlyClosed(v.s, v2));
  }

  lemma DataTold(v: View, f: Frame, v2: View, v': View)
    requires f.Data? && v.s.state in {Open, HalfClosedLocal} && NotGivenUp(v.s)
    requires v2.s == StreamAfter(v.s, f).(hist := v2.s.hist)
    requires v2.w == v.w.(log := v.w.log + Reply(v.s, f)) && v'.s == v2.s
    requires v'.w == v2.w.(completions := v2.w.completions +
               if v2.s.state == Closed then Verdicts(v2.s, [Response(v2.s.responseHeaders, v2.s.responseBody)]) else [])
    ensures Answered(v, f, v')
  {
    NothingTold(v.s);
  }

  lemma DataAccounted(v: View, d: DataFrame)
    requires SL.Valid(v.s)
    ensures Dispatch(v, Data(d)).Ok?
    ensures var v' := Dispatch(v, Data(d)).value;
            var left := v.s.receiveWindow - |d.data|;
            && v'.w == v.w.(log := if left < 16384
                    then v.w.log + [WindowUpdate(v.s.id, (v.s.initialReceiveWindow - left) % 0x1_0000_0000)]
                    else v.w.log)
            && v'.s == v.s.(responseBody := v.s.responseBody + d.data, hist := v'.s.hist,
                            receiveWindow := if left < 16384 then v.s.initialReceiveWindow else left)
  {
    hide SL.Valid, AccountData, SL.Keeps, SL.Settled;
    SL.AccountDataKeeps(v, |d.data|);
    var v1 := AccountData(v, |d.data|).value;
    assert Dispatch(v, Data(d)) == Ok(v1.(s := v1.s.(responseBody := v1.s.responseBody + d.data)));
  }

  /** The command of a stream that has just closed is told the error or the response. */
  lemma FinalizingTells(before: Stream, v: View)
    ensures var v' := FinalizeIfNewlyClosed(before, v);
            && v'.s == v.s
            && v'.w == v.w.(completions := v.w.completions +
                 if before.state != Closed && v.s.state == Closed
                 then Verdicts(v.s, [if v.s.err.Some? then StreamFailure(v.s.err.value)
                                     else Response(v.s.responseHeaders, v.s.responseBody)])
                 else [])
  {
    NothingTold(v.s);
  }

  lemma CutBlockAnswers(v: View, f: Frame)
    requires SL.Valid(v.s) && SL.EndsBlockEarly(f) && v.s.state != Closed && !Forbidden(v.s.state, f)
    requires NotGivenUp(v.s) && v.s.state != ReservedLocal
    ensures ReceiveFrame(v, f).Ok? && Answered(v, f, ReceiveFrame(v, f).value)
  {
    hide SL.Valid, FinalizeIfNewlyClosed, CloseWithError, Verdicts, ReceiveFrame;
    var v1 := Arrives(v, f);
    ClosingTells(v1, 7);
    var v2 := CloseWithError(v1, 7).value;
    FinalizingTells(v.s, v2);
    TwiceTold(v.w.completions, v.s, StreamFailure(ClosedByClient(7)));
    SameTold(v.s, v1.s, v2.s);
    assert v1.s.state == Closed <==> f.Headers? && EndsResponse(v.s.state, f.endStream);
    assert v2.s == StreamAfter(v.s, f).(hist := v2.s.hist);
    var (refused, told) := (StreamFailure(ClosedByClient(7)), Response(v.s.responseHeaders, v.s.responseBody));
    assert v.s.responseHeaders + [] == v.s.responseHeaders;
    if v1.s.state == Closed {
      assert v2 == v1 && Results(v.s, f) == [told];
      assert Verdicts(v2.s, [told]) == Verdicts(v.s, [told]);
    } else {
      assert v2.w.log == v.w.log + [RstStream(v.s.id, 7)] && Results(v.s, f) == [refused, refused];
      assert v2.w.completions == v.w.completions + Verdicts(v1.s, [refused]);
      assert Verdicts(v1.s, [refused]) == Verdicts(v.s, [refused]) == Verdicts(v2.s, [refused]);
      assert FinalizeIfNewlyClosed(v.s, v2).w.completions == v2.w.completions + Verdicts(v2.s, [refused]);
    }
  }

  lemma TwiceTold(cs: seq<Completion>, s: Stream, r: CommandResult)
    ensures cs + Verdicts(s, [r]) + Verdicts(s, [r]) == cs + Verdicts(s, [r, r])
  {
  }

  lemma SameTold(a: Stream, b: Stream, c: Stream)
    requires a.command == b.command == c.command
    ensures forall rs :: Verdicts(a, rs) == Verdicts(b, rs) == Verdicts(c, rs)
  {
  }

  lemma OtherAnswers(v: View, f: Frame)
    requires SL.Valid(v.s) && !f.Data? && !f.WindowUpdate? && GetsThrough(v.s, f)
    requires NotGivenUp(v.s) && v.s.state != ReservedLocal
    ensures ReceiveFrame(v, f).Ok? && Answered(v, f, ReceiveFrame(v, f).value)
  {
    NothingTold(v.s);
    hide SL.Valid;
  }

  /** What a received frame does to its stream, its command and the wire: exactly this, and nothing else. */
  lemma ReceivedIsAnswered(v: View, f: Frame)
    requires SL.Valid(v.s) && NotGivenUp(v.s) && !f.WindowUpdate?
    ensures ReceiveFrame(v, f).Ok? && Answered(v, f, ReceiveFrame(v, f).value)
  {
    SL.NotReservedLocal(v.s);
    hide ReceiveFrame, Answered, SL.Valid, NotGivenUp;
    if v.s.state == Closed {
      ClosedAnswers(v, f);
    } else if Forbidden(v.s.state, f) {
      ForbiddenAnswers(v, f);
    } else if SL.EndsBlockEarly(f) {
      CutBlockAnswers(v, f);
    } else if f.Data? {
      DataAnswers(v, f);
    } else {
      OtherAnswers(v, f);
    }
  }

  // ---------------------------------------------------------------- credit for a stream

  /** The log gains DATA frames only. */
  ghost predicate OnlyData(log: seq<Frame>, log': seq<Frame>) {
    log <= log' && forall k :: |log| <= k < |log'| ==> log'[k].Data?
  }

  lemma OnlyDataThen(a: seq<Frame>, b: seq<Frame>, c: seq<Frame>)
    requires OnlyData(a, b) && OnlyData(b, c)
    ensures OnlyData(a, c)
  {
  }

  /** A drain changes what is sent, and nothing of what is received. */
  predicate SendsOnly(s: Stream, s': Stream) {
    s' == s.(state := s'.state, sendWindow := s'.sendWindow, pending := s'.pending, hist := s'.hist)
  }

  lemma WritingHead(v: View)
    requires v.s.pending != [] && Fits(v, |v.s.pending[0].data|)
    ensures var r := SendData(v.(s := v.s.(pending := v.s.pending[1..])), v.s.pending[0], true);
            r.Ok? ==>
              && OnlyData(v.w.log, r.value.w.log) && SendsOnly(v.s, r.value.s)
              && r.value.w.completions == v.w.completions && r.value.s.pending == v.s.pending[1..]
              && v.s.state != Closed && r.value.s.hist.silentClose == v.s.hist.silentClose
  {
  }

  lemma {:induction false} DrainSends(v: View)
    requires ProcessPending(v).Ok?
    ensures var v' := ProcessPending(v).value;
            && OnlyData(v.w.log, v'.w.log) && SendsOnly(v.s, v'.s) && v'.w.completions == v.w.completions
            && (v.s.state == Closed ==> v'.s.state == Closed) && v'.s.hist.silentClose == v.s.hist.silentClose
    decreases |v.s.pending|
  {
    hide SendData, OnlyData;
    if v.s.pending != [] && Fits(v, |v.s.pending[0].data|) {
      WritingHead(v);
      var v1 := SendData(v.(s := v.s.(pending := v.s.pending[1..])), v.s.pending[0], true).value;
      DrainSends(v1);
      OnlyDataThen(v.w.log, v1.w.log, ProcessPending(v1).value.w.log);
    } else {
      NoData(v.w.log);
    }
  }

  lemma NoData(log: seq<Frame>)
    ensures OnlyData(log, log)
  {
  }

  /** WINDOW_UPDATE releases DATA frames and nothing else; if that closes the stream, the response is complete. */
  predicate Released(v: View, v': View) {
    && v'.w.completions == v.w.completions +
         (if v.s.state != Closed && v'.s.state == Closed
          then Verdicts(v.s, [Response(v.s.responseHeaders, v.s.responseBody)]) else [])
    && SendsOnly(v.s, v'.s)
  }

  lemma CreditIsAnswered(v: View, f: Frame)
    requires SL.Valid(v.s) && NotGivenUp(v.s) && f.WindowUpdate? && ReceiveFrame(v, f).Ok?
    ensures Released(v, ReceiveFrame(v, f).value) && OnlyData(v.w.log, ReceiveFrame(v, f).value.w.log)
  {
    hide SL.Valid, FinalizeIfNewlyClosed, Dispatch, ReceiveFrame, Verdicts, OnlyData, ProcessPending;
    var v1 := Arrives(v, f);
    SL.ReceiveFrameKeeps(v, f);
    SL.CreditKeeps(v1, f);
    hide SL.Keeps;
    SL.DispatchKeeps(v1, f);
    DrainSends(SL.Credited(v1, f));
    var v2 := Dispatch(v1, f).value;
    FinalizingTells(v.s, v2);
    SameTold(v.s, v1.s, v2.s);
  }

  // ---------------------------------------------------------------- the connection

  /** The stream that a frame for `id` finds: the one in the map, or a new, idle one. */
  function StreamFor(c: Connection, id: StreamId): Stream {
    if Known(c, id) then c.store[c.streams[id]]
    else Stream(id, Idle, [], [], [], None, None, c.initialSendWindow, c.initialSendWindow,
                c.initialReceiveWindow, c.initialReceiveWindow, [], History([Idle], [], [], [], 0, 0, 0, false))
  }

  /** Store and map, with the stream for `id` as it is now, in place of what it was or as a new entry. */
  predicate OnlyStream(c: Connection, id: StreamId, s: Stream, c': Connection) {
    if Known(c, id) then c'.streams == c.streams && c'.store == c.store[c.streams[id] := s]
    else c'.streams == c.streams[id := |c.store|] && c'.store == c.store + [s]
  }

  /** getOrCreateStream finds it. */
  lemma Found(c: Connection, id: StreamId)
    requires Sound(c)
    ensures var c1 := GetOrCreate(c, id);
            && Sound(c1) && Known(c1, id) && c1 == c.(store := c1.store, streams := c1.streams)
            && c1.store[c1.streams[id]] == StreamFor(c, id)
            && OnlyStream(c, id, StreamFor(c, id), c1)
  {
    GetOrCreateKeeps(c, id);
    hide Sound, Grows, AllSettled, StreamSound;
    if Known(c, id) {
      MappedFound(c, id);
    } else {
      NotMapped(c, id);
    }
  }

  lemma PutFound(c: Connection, id: StreamId, s: Stream, c1: Connection, v: View)
    requires OnlyStream(c, id, s, c1) && Known(c1, id)
    ensures OnlyStream(c, id, v.s, Put(c1, c1.streams[id], v))
  {
  }

  lemma MappedFound(c: Connection, id: StreamId)
    requires Known(c, id)
    ensures GetOrCreate(c, id) == c
  {
  }

  lemma NotMapped(c: Connection, id: StreamId)
    requires Sound(c) && !Known(c, id)
    ensures id !in c.streams
  {
    hide StreamSound;
  }

  /** The credit that the connection as a whole gets back for DATA. */
  function ConnectionReply(c: Connection, f: Frame): seq<Frame> {
    if f.Data? && c.receiveWindow - |f.frame.data| < 16384
    then [WindowUpdate(0, (65535 - (c.receiveWindow - |f.frame.data|)) % 0x1_0000_0000)] else []
  }

  /** Every stream object that is not closed has no error. */
  ghost predicate NoneGivenUp(c: Connection) {
    forall h :: 0 <= h < |c.store| ==> NotGivenUp(c.store[h])
  }

  /** RST_STREAM for a stream that has never been used is ignored. */
  predicate Ignored(c: Connection, f: Frame) {
    f.RstStream? && StreamFor(c, f.streamId).state == Idle
  }

  /** What a frame for a stream does to the wire and to the commands. */
  predicate Effect(c: Connection, f: Frame, c': Connection) {
    var (id, s) := (f.GetStreamId(), StreamFor(c, f.GetStreamId()));
    && c' == c.(store := c'.store, streams := c'.streams, writer := c'.writer, hist := c'.hist,
                receiveWindow := c'.receiveWindow)
    && if Ignored(c, f) then OnlyStream(c, id, s, c') && c'.writer == c.writer
    else
      && Known(c', id) && OnlyStream(c, id, c'.store[c'.streams[id]], c')
      && var s' := c'.store[c'.streams[id]];
         if f.WindowUpdate? then Released(View(s, c.writer), View(s', c'.writer))
         else
           && c'.writer == c.writer.(log := c.writer.log + ConnectionReply(c, f) + Reply(s, f),
                                     completions := c.writer.completions + Verdicts(s, Results(s, f)))
           && s' == StreamAfter(s, f).(hist := s'.hist)
  }

  lemma StreamForIsValid(c: Connection, id: StreamId)
    requires Sound(c) && NoneGivenUp(c)
    ensures SL.Valid(StreamFor(c, id)) && NotGivenUp(StreamFor(c, id)) && StreamFor(c, id).id == id
  {
    if Known(c, id) {
      Lookup(c, id);
    }
    hide Sound;
  }

  lemma AccountingReplies(c: Connection, f: Frame)
    requires Sound(c)
    ensures var c0 := if f.Data? then AccountConnectionData(c, |f.frame.data|) else c;
            && c0.writer == c.writer.(log := c.writer.log + ConnectionReply(c, f))
            && c0.store == c.store && c0.streams == c.streams && Sound(c0)
            && StreamFor(c0, f.GetStreamId()) == StreamFor(c, f.GetStreamId())
            && GetOrCreate(c0, f.GetStreamId()) == BeforeReceive(c, f)
            && c0 == c.(writer := c0.writer, hist := c0.hist, receiveWindow := c0.receiveWindow)
  {
    hide Sound, GetOrCreate;
    if f.Data? {
      var c0 := AccountConnectionData(c, |f.frame.data|);
      AccountConnectionDataKeeps(c, |f.frame.data|);
      BookkeepingAdvances(c, c0);
      AdvancesIsSound(c, c0);
    }
    assert c.writer.log + [] == c.writer.log;
  }

  /** A frame for a stream, other than PUSH_PROMISE, has exactly this effect. */
  lemma FrameHasEffect(c: Connection, f: Frame)
    requires Sound(c) && NoneGivenUp(c) && !f.PushPromise? && HandleForStream(c, f).Ok?
    ensures Effect(c, f, HandleForStream(c, f).value)
    ensures f.WindowUpdate? && !Ignored(c, f) ==> OnlyData(c.writer.log, HandleForStream(c, f).value.writer.log)
  {
    hide HandleForStream, ReceiveFrame, Sound, SL.Valid, NoneGivenUp, OnlyData, BeforeReceive, GetOrCreate,
         ConnectionReply, Reply, Results, Verdicts, StreamAfter, NotGivenUp, AccountConnectionData, Released;
    SoundIsWellFormed(c);
    Routing(c, f);
    AccountingReplies(c, f);
    var id := f.GetStreamId();
    var c0 := if f.Data? then AccountConnectionData(c, |f.frame.data|) else c;
    Found(c0, id);
    StreamForIsValid(c, id);
    var c1 := BeforeReceive(c, f);
    var v := ViewOf(c1, c1.streams[id]);
    if !Ignored(c, f) {
      if f.WindowUpdate? {
        CreditIsAnswered(v, f);
      } else {
        ReceivedIsAnswered(v, f);
      }
      PutFound(c0, id, v.s, c1, ReceiveFrame(v, f).value);
    }
    hide OnlyStream;
  }

  // ---------------------------------------------------------------- promises

  /** The promise is made on a stream whose response is still to come. */
  predicate Attended(c: Connection, f: Frame) {
    f.PushPromise? && Known(c, f.streamId) && c.store[c.streams[f.streamId]].state in {Open, HalfClosedLocal}
  }

  predicate PromisesGet(f: Frame) {
    f.PushPromise? && FindHeader(":method", f.headers) == "GET"
  }

  /** A new stream is promised something other than a GET. */
  predicate Unwanted(p: Stream, f: Frame) {
    f.PushPromise? && f.endHeaders && p.state == Idle && !PromisesGet(f)
  }

  function PromisedAfter(p: Stream, f: Frame): Stream {
    if Unwanted(p, f) then StreamAfter(p, f).(state := Closed, err := Some(ClosedByClient(7))) else StreamAfter(p, f)
  }

  /** What a promise does: a GET is cached, whatever became of its stream; anything else is refused. */
  predicate PromiseEffect(c: Connection, f: Frame, c': Connection)
    requires f.PushPromise?
  {
    if !Attended(c, f) then c' == c
    else
      var (id, p) := (f.promisedStreamId, StreamFor(c, f.promisedStreamId));
      var refusal := if Unwanted(p, f) then [RstStream(id, 7)] else [];
      var failure := if Unwanted(p, f) then [StreamFailure(ClosedByClient(7))] else [];
      && c' == c.(store := c'.store, streams := c'.streams, writer := c'.writer, cache := c'.cache, hist := c'.hist)
      && Known(c', id) && OnlyStream(c, id, c'.store[c'.streams[id]], c')
      && c'.store[c'.streams[id]] == PromisedAfter(p, f).(hist := c'.store[c'.streams[id]].hist)
      && c'.writer == c.writer.(log := c.writer.log + Reply(p, f) + refusal,
                                completions := c.writer.completions + Verdicts(p, Results(p, f) + failure))
      && c'.cache == (if PromisesGet(f) then c.cache[id := c'.streams[id]] else c.cache)
  }

  lemma DecidingTells(c: Connection, f: Frame)
    requires Sound(c) && f.PushPromise? && Known(c, f.promisedStreamId)
    ensures AfterPromise(c, f).Ok?
    ensures var c' := AfterPromise(c, f).value;
            var (h, refused) := (c.streams[f.promisedStreamId], !PromisesGet(f));
            var s := c.store[h];
            && c' == c.(store := c'.store, writer := c'.writer, cache := c'.cache, hist := c'.hist)
            && (refused && s.state != Closed ==>
                  && c'.store == c.store[h := c'.store[h]]
                  && c'.store[h] == s.(state := Closed, err := Some(ClosedByClient(7)), hist := c'.store[h].hist)
                  && c'.writer == c.writer.(log := c.writer.log + [RstStream(s.id, 7)],
                       completions := c.writer.completions + Verdicts(s, [StreamFailure(ClosedByClient(7))])))
            && (!refused || s.state == Closed ==> c'.store == c.store && c'.writer == c.writer)
            && c'.cache == (if refused then c.cache else c.cache[f.promisedStreamId := h])
  {
    hide CloseWithError, SL.Valid, StreamSound, Verdicts, FindHeader, TotalWritten;
    Lookup(c, f.promisedStreamId);
    hide Sound;
    ClosingTells(ViewOf(c, c.streams[f.promisedStreamId]), 7);
  }

  lemma PromisedState(p: Stream, f: Frame)
    requires f.PushPromise? && SL.Valid(p)
    ensures StreamAfter(p, f).state == Closed <==> p.state != Idle || !f.endHeaders
    ensures StreamAfter(p, f).id == p.id && StreamAfter(p, f).command == p.command
  {
    SL.NotReservedLocal(p);
    hide SL.Valid;
  }

  lemma VerdictsConcat(cs: seq<Completion>, s: Stream, a: seq<CommandResult>, b: seq<CommandResult>)
    ensures cs + Verdicts(s, a) + Verdicts(s, b) == cs + Verdicts(s, a + b)
  {
  }

  lemma PromiseSettled(c: Connection, f: Frame, c1: Connection, v2: View, c2: Connection, c': Connection)
    requires Sound(c2) && Attended(c, f) && Known(c1, f.promisedStreamId) && SL.Valid(StreamFor(c, f.promisedStreamId))
    requires StreamFor(c, f.promisedStreamId).id == f.promisedStreamId
    requires Answered(View(StreamFor(c, f.promisedStreamId), c.writer), f, v2)
    requires c2 == Put(c1, c1.streams[f.promisedStreamId], v2)
    requires c1 == c.(store := c1.store, streams := c1.streams)
    requires OnlyStream(c, f.promisedStreamId, v2.s, c2)
    requires AfterPromise(c2, f) == Ok(c')
    ensures PromiseEffect(c, f, c')
  {
    hide Sound, SL.Valid, Reply, Results, Verdicts, StreamAfter, AfterPromise;
    var id := f.promisedStreamId;
    var p := StreamFor(c, id);
    PromisedState(p, f);
    DecidingTells(c2, f);
    var failure := [StreamFailure(ClosedByClient(7))];
    VerdictsConcat(c.writer.completions, p, Results(p, f), failure);
    SameTold(p, v2.s, v2.s);
    assert Verdicts(p, failure) == Verdicts(v2.s, failure);
    assert Results(p, f) + [] == Results(p, f) && c.writer.log + Reply(p, f) + [] == c.writer.log + Reply(p, f);
    assert v2.s == c2.store[c2.streams[id]];
  }

  lemma PromiseHasEffect(c: Connection, f: Frame)
    requires Sound(c) && NoneGivenUp(c) && f.PushPromise?
    ensures HandlePushPromise(c, f).Ok? && PromiseEffect(c, f, HandlePushPromise(c, f).value)
  {
    hide ReceiveFrame, Sound, SL.Valid, NoneGivenUp, GetOrCreate, Reply, Results, Verdicts, StreamAfter, NotGivenUp,
         AfterPromise, StreamSound;
    SoundIsWellFormed(c);
    if Attended(c, f) {
      var id := f.promisedStreamId;
      var p := StreamFor(c, id);
      var c1, c2 := PromiseTaken(c, f);
      Found(c, id);
      StreamForIsValid(c, id);
      var v := ViewOf(c1, c1.streams[id]);
      ReceivedIsAnswered(v, f);
      var v2 := ReceiveFrame(v, f).value;
      PutFound(c, id, p, c1, v2);
      DecidingTells(c2, f);
      hide HandlePushPromise;
      PromiseSettled(c, f, c1, v2, c2, AfterPromise(c2, f).value);
    } else if f.streamId in c.streams {
      Lookup(c, f.streamId);
    }
  }

  // ---------------------------------------------------------------- the connection as a whole

  /** The stream closes without a word to its command, and the history has a note of it. */
  predicate ClosesInSilence(s: Stream, s': Stream) {
    && (s.state == Closed ==> s'.state == Closed)
    && (s'.hist.silentClose <==> s.hist.silentClose || (s.state != Closed && s'.state == Closed))
  }

  /** Credit for the connection releases DATA, and completes no command. */
  predicate Drained(c: Connection, c': Connection) {
    && c'.writer.completions == c.writer.completions
    && c' == c.(store := c'.store, writer := c'.writer, hist := c'.hist)
    && |c'.store| == |c.store|
    && forall h :: 0 <= h < |c.store| ==>
         SendsOnly(c.store[h], c'.store[h]) && ClosesInSilence(c.store[h], c'.store[h])
  }

  lemma DrainOneSends(c: Connection, id: StreamId)
    requires DrainOne(c, id).Ok?
    ensures Drained(c, DrainOne(c, id).value) && OnlyData(c.writer.log, DrainOne(c, id).value.writer.log)
  {
    hide ProcessPending, OnlyData;
    NoData(c.writer.log);
    if Known(c, id) {
      DrainNeedsProcess(c, id);
      DrainSends(ViewOf(c, c.streams[id]));
    }
  }

  lemma DrainedThen(a: Connection, b: Connection, c: Connection)
    requires Drained(a, b) && Drained(b, c)
    ensures Drained(a, c)
  {
  }

  lemma {:induction false} DrainAllSends(c: Connection, order: seq<StreamId>)
    requires DrainAll(c, order).Ok?
    ensures Drained(c, DrainAll(c, order).value) && OnlyData(c.writer.log, DrainAll(c, order).value.writer.log)
    decreases order
  {
    hide DrainOne, Drained, OnlyData;
    if order == [] {
      assert Drained(c, c) by { NothingDrained(c); }
      NoData(c.writer.log);
    } else {
      var n := |order| - 1;
      DrainAllSends(c, order[..n]);
      var c1 := DrainAll(c, order[..n]).value;
      DrainOneSends(c1, order[n]);
      var c' := DrainOne(c1, order[n]).value;
      DrainedThen(c, c1, c');
      OnlyDataThen(c.writer.log, c1.writer.log, c'.writer.log);
    }
  }

  lemma NothingDrained(c: Connection)
    ensures Drained(c, c)
  {
  }

  /** The frames that the connection writes itself in answer to an event. */
  function ConnectionAnswer(c: Connection, e: Event): seq<Frame> {
    match e
    case Received(Settings(_, ack, _)) => if ack then [] else [Settings(0, true, map[])]
    case Received(Ping(_, payload, ack)) => if ack then [] else [Ping(0, payload, true)]
    case PingCommand(_) => [Ping(0, c.nextPingId, false)]
    case _ => []
  }

  /** PINGs without an answer, after the event. */
  function PendingAfter(c: Connection, e: Event): map<u64, nat> {
    match e
    case Received(Ping(_, payload, ack)) => if ack then c.pendingPings - {payload} else c.pendingPings
    case PingCommand(id) => c.pendingPings[c.nextPingId := id]
    case _ => c.pendingPings
  }

  /** An event that concerns the connection as a whole, credit aside. */
  predicate OfConnection(e: Event) {
    match e
    case Received(f) => f.GetStreamId() == 0 && !f.WindowUpdate?
    case Http(_) => false
    case _ => true
  }

  /** Streams, cache and commands are as they were. */
  predicate ConnectionEffect(c: Connection, e: Event, c': Connection) {
    && c'.store == c.store && c'.streams == c.streams && c'.cache == c.cache
    && c'.writer == c.writer.(log := c.writer.log + ConnectionAnswer(c, e))
    && c'.pendingPings == PendingAfter(c, e)
    && c'.nextPingId == (if e.PingCommand? then (c.nextPingId + 1) % 0x1_0000_0000_0000_0000 else c.nextPingId)
  }

  lemma ConnectionAnswers(c: Connection, i: Input)
    requires WellFormed(c) && OfConnection(i.event)
    ensures Step(c, i).Ok? && ConnectionEffect(c, i.event, Step(c, i).value)
  {
    hide HandleForStream, ExecuteHttp, DrainAll, HandleSettings;
    assert c.writer.log + [] == c.writer.log;
    if i.event.Received? && i.event.frame.Settings? {
      SettingsAnswers(c, i.event.frame);
    } else if i.event.Received? && i.event.frame.Ping? {
      PingAnswers(c, i.event.frame);
      hide HandlePing, PendingAfter;
    }
  }

  lemma SettingsAnswers(c: Connection, f: Frame)
    requires f.Settings? && f.streamId == 0
    ensures ConnectionEffect(c, Received(f), HandleSettings(c, f.settings, f.ack))
  {
    assert c.writer.log + [] == c.writer.log;
  }

  lemma PingAnswers(c: Connection, f: Frame)
    requires f.Ping? && f.streamId == 0
    ensures ConnectionEffect(c, Received(f), HandlePing(c, f.payload, f.ack))
  {
    assert c.writer.log + [] == c.writer.log;
    assert f.payload !in c.pendingPings ==> c.pendingPings - {f.payload} == c.pendingPings;
  }

  /** Credit for the connection as a whole. */
  lemma CreditForAll(c: Connection, i: Input)
    requires WellFormed(c) && DrainsAll(i.event) && Step(c, i).Ok?
    ensures Drained(c, Step(c, i).value) && OnlyData(c.writer.log, Step(c, i).value.writer.log)
  {
    hide DrainAll, OnlyData;
    DrainAllSends(AddConnectionCredit(c, i.event.frame.increment), i.order);
  }
}
