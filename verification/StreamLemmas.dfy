/** Invariants of one stream, kept by every operation of StreamSpec. */
module StreamLemmas {
  import opened Wrappers
  import opened Frames
  import opened StreamState
  import opened StreamSpec

  // ---------------------------------------------------------------- sequences of DATA frames

  function Bytes(fs: seq<DataFrame>): nat {
    if fs == [] then 0 else Bytes(fs[..|fs| - 1]) + |fs[|fs| - 1].data|
  }

  function Payload(fs: seq<DataFrame>): seq<byte> {
    if fs == [] then [] else Payload(fs[..|fs| - 1]) + fs[|fs| - 1].data
  }

  lemma BytesAppend(fs: seq<DataFrame>, d: DataFrame)
    ensures Bytes(fs + [d]) == Bytes(fs) + |d.data|
    ensures Payload(fs + [d]) == Payload(fs) + d.data
  {
    assert (fs + [d])[..|fs|] == fs;
  }

  lemma {:induction false} BytesConcat(a: seq<DataFrame>, b: seq<DataFrame>)
    ensures Bytes(a + b) == Bytes(a) + Bytes(b)
    ensures Payload(a + b) == Payload(a) + Payload(b)
    decreases b
  {
    if b == [] {
      assert a + b == a;
    } else {
      var init := b[..|b| - 1];
      BytesConcat(a, init);
      assert (a + b)[..|a + b| - 1] == a + init;
      assert Payload(a + b) == Payload(a + init) + b[|b| - 1].data;
    }
  }

  /** END_STREAM is on no frame but the last. */
  ghost predicate EndsOnlyLast(fs: seq<DataFrame>) {
    forall i :: 0 <= i < |fs| - 1 ==> !fs[i].endStream
  }

  ghost predicate AllFor(id: StreamId, fs: seq<DataFrame>) {
    forall i :: 0 <= i < |fs| ==> fs[i].streamId == id
  }

  predicate Ended(fs: seq<DataFrame>) {
    fs != [] && fs[|fs| - 1].endStream
  }

  // ---------------------------------------------------------------- invariant

  ghost predicate Valid(s: Stream) {
    var h := s.hist;
    && s.sendWindow >= 0
    && (h.written != [] ==> s.sendWindow >= 1)
    && s.initialSendWindow >= 0
    && h.submitted == h.written + s.pending
    && Bytes(h.written) + s.sendWindow == s.initialSendWindow + h.credit
    && Lifetime(h.path)
    && h.path[|h.path| - 1] == s.state
    && EndsOnlyLast(h.submitted)
    && AllFor(s.id, h.submitted)
    && (h.submitted != [] && !Ended(h.written) ==> s.state in {Open, HalfClosedRemote, Closed})
    && (h.silentClose ==> s.state == Closed)
  }

  /** Nothing that waits could be written now. */
  predicate Settled(s: Stream, connectionWindow: int) {
    s.pending == [] || s.sendWindow <= |s.pending[0].data| || connectionWindow <= |s.pending[0].data|
  }

  /** A reset left frames behind in the queue of a closed stream. */
  predicate Stranded(s: Stream) {
    s.state == Closed && s.pending != []
  }

  ghost predicate Extends(h: History, h': History) {
    && h'.upload == h.upload
    && h.path <= h'.path
    && h.written <= h'.written
    && h.submitted <= h'.submitted
    && h.credit <= h'.credit
    && (h.silentClose ==> h'.silentClose)
  }

  /** What any operation on a stream leaves alone, only extends, or exchanges byte for byte. */
  ghost predicate Conserves(v: View, v': View) {
    && v'.s.id == v.s.id
    && v'.s.initialSendWindow == v.s.initialSendWindow
    && v'.s.initialReceiveWindow == v.s.initialReceiveWindow
    && (v.s.command.Some? ==> v'.s.command == v.s.command)
    && Extends(v.s.hist, v'.s.hist)
    && v.w.log <= v'.w.log
    && v.w.completions <= v'.w.completions
    && v'.w.sendWindow + Bytes(v'.s.hist.written) == v.w.sendWindow + Bytes(v.s.hist.written)
    && v'.w.sendWindow <= v.w.sendWindow
    && (v.w.sendWindow >= 1 ==> v'.w.sendWindow >= 1)
  }

  ghost predicate Evolves(v: View, v': View) {
    Conserves(v, v') && v'.s.command == v.s.command && v'.s.hist.silentClose == v.s.hist.silentClose
  }

  /** The queue has no more than what was there. */
  predicate SubmitsNothing(v: View, v': View) {
    v'.s.hist.submitted == v.s.hist.submitted
  }

  /** What holds across every operation that submits no new DATA frame. */
  ghost predicate Keeps(v: View, v': View) {
    && Valid(v'.s) && Evolves(v, v') && SubmitsNothing(v, v')
    && (Settled(v.s, v.w.sendWindow) ==> Settled(v'.s, v'.w.sendWindow))
  }

  function ResultOf(s: Stream): CommandResult {
    match s.err
    case Some(e) => StreamFailure(e)
    case None => Response(s.responseHeaders, s.responseBody)
  }

  predicate Closes(v: View, v': View) {
    v.s.state != Closed && v'.s.state == Closed
  }

  /** The command of a stream is completed, with what the stream has received, exactly when the stream closes. */
  predicate CompletesOnClose(v: View, v': View) {
    v'.w.completions ==
      if Closes(v, v') && v.s.command.Some?
      then v.w.completions + [Completion(v.s.command.value.id, ResultOf(v'.s))]
      else v.w.completions
  }

  // ---------------------------------------------------------------- operations

  lemma SetStatesValid(s: Stream, sets: seq<State>)
    requires Lifetime(s.hist.path) && s.hist.path[|s.hist.path| - 1] == s.state && Walk([s.state] + sets)
    ensures var s' := SetStates(s, sets);
            Lifetime(s'.hist.path) && s'.hist.path[|s'.hist.path| - 1] == s'.state && s.hist.path <= s'.hist.path
  {
    WalkAppends(s.hist.path, sets);
  }

  lemma NotReservedLocal(s: Stream)
    requires Lifetime(s.hist.path) && s.hist.path[|s.hist.path| - 1] == s.state
    ensures s.state != ReservedLocal
  {
    var path := s.hist.path;
    if |path| > 1 {
      assert Move(path[|path| - 2], path[|path| - 1]);
    }
  }

  /** The frame at the head of the queue finds the stream in a state that may send it. */
  lemma HeadMayBeSent(s: Stream)
    requires Valid(s) && s.pending != [] && !Stranded(s)
    ensures s.state in {Open, HalfClosedRemote} && !Ended(s.hist.written)
    ensures s.pending[0].endStream ==> |s.pending| == 1
    ensures s.hist.submitted == (s.hist.written + [s.pending[0]]) + s.pending[1..]
  {
    var h := s.hist;
    assert h.submitted[|h.written|] == s.pending[0];
    if h.written != [] {
      assert h.submitted[|h.written| - 1] == h.written[|h.written| - 1];
    }
  }

  /** The stream after its head frame was written. */
  function Wrote(s: Stream): Stream
    requires s.pending != []
  {
    var d := s.pending[0];
    SetStates(s.(sendWindow := s.sendWindow - |d.data|, pending := s.pending[1..],
        hist := s.hist.(written := s.hist.written + [d])),
              LocalEnd(s.state, d.endStream))
  }

  lemma WroteValid(s: Stream)
    requires Valid(s) && s.pending != [] && !Stranded(s) && s.sendWindow > |s.pending[0].data|
    ensures Valid(Wrote(s)) && !Stranded(Wrote(s))
    ensures s.hist.path <= Wrote(s).hist.path
    ensures Bytes(Wrote(s).hist.written) == Bytes(s.hist.written) + |s.pending[0].data|
  {
    HeadMayBeSent(s);
    var sets := LocalEnd(s.state, s.pending[0].endStream);
    assert Outgoing(s.state, Data(s.pending[0])) == Ok(sets);
    OutgoingWalks(s.state, Data(s.pending[0]));
    SetStatesValid(s, sets);
    BytesAppend(s.hist.written, s.pending[0]);
  }

  /** Writing the frame at the head of the queue. */
  lemma WriteHead(v: View)
    requires Valid(v.s) && v.s.pending != [] && Fits(v, |v.s.pending[0].data|) && !Stranded(v.s)
    ensures var r := SendData(v.(s := v.s.(pending := v.s.pending[1..])), v.s.pending[0], true);
            && r.Ok?
            && r.value.s == Wrote(v.s)
            && Valid(r.value.s) && !Stranded(r.value.s) && Evolves(v, r.value) && SubmitsNothing(v, r.value)
            && r.value.w.completions == v.w.completions
  {
    HeadMayBeSent(v.s);
    WroteValid(v.s);
  }

  /**
   The drain. It never re-appends the frame it took; it stops only where the head does not fit; it panics exactly
   when a reset left frames behind and the first of them fits.
   */
  lemma {:induction false} ProcessPendingKeeps(v: View)
    requires Valid(v.s)
    ensures ProcessPending(v).Crash? <==> Stranded(v.s) && Fits(v, |v.s.pending[0].data|)
    ensures ProcessPending(v).Crash? ==> ProcessPending(v) == Crash(IllegalStreamState)
    ensures ProcessPending(v).Ok? ==>
              var v' := ProcessPending(v).value;
              && Keeps(v, v')
              && Settled(v'.s, v'.w.sendWindow)
              && (!Stranded(v.s) ==> !Stranded(v'.s))
              && v'.w.completions == v.w.completions
              && v'.s.err == v.s.err
    decreases |v.s.pending|
  {
    if v.s.pending != [] && Fits(v, |v.s.pending[0].data|) && !Stranded(v.s) {
      WriteHead(v);
      var v1 := SendData(v.(s := v.s.(pending := v.s.pending[1..])), v.s.pending[0], true).value;
      ProcessPendingKeeps(v1);
    }
  }

  lemma HeadAndRest(fs: seq<DataFrame>)
    requires fs != []
    ensures Bytes(fs) == |fs[0].data| + Bytes(fs[1..])
  {
    BytesConcat([fs[0]], fs[1..]);
    assert [fs[0]] + fs[1..] == fs;
    assert Bytes([]) == 0 && Bytes([fs[0]]) == Bytes([fs[0]][..0]) + |fs[0].data|;
  }

  /**
   A drain closes the stream exactly when the server is done, END_STREAM waits in the queue, and both windows exceed all
   the bytes that wait. After a connection-level drain nothing completes the command then.
   */
  lemma {:induction false} DrainCloses(v: View)
    requires Valid(v.s) && !Stranded(v.s)
    ensures ProcessPending(v).Ok?
    ensures Closes(v, ProcessPending(v).value) <==>
            v.s.state == HalfClosedRemote && Ended(v.s.pending) && Fits(v, Bytes(v.s.pending))
    decreases |v.s.pending|
  {
    ProcessPendingKeeps(v);
    if v.s.pending != [] {
      HeadAndRest(v.s.pending);
      HeadMayBeSent(v.s);
      if Fits(v, |v.s.pending[0].data|) {
        WriteHead(v);
        var v1 := SendData(v.(s := v.s.(pending := v.s.pending[1..])), v.s.pending[0], true).value;
        DrainCloses(v1);
        if |v.s.pending| == 1 {
          assert Bytes(v.s.pending[1..]) == 0;
          EmptyQueueStays(v1);
        }
        hide Valid, Keeps, Evolves, Bytes, Outgoing;
      }
    }
  }

  lemma EmptyQueueStays(v: View)
    requires v.s.pending == []
    ensures ProcessPending(v) == Ok(v)
  {
  }

  /** The stream with one more frame submitted, waiting at the end of the queue. */
  function Enqueued(s: Stream, d: DataFrame): Stream {
    Submit(s, d).(pending := s.pending + [d])
  }

  lemma EnqueuedValid(s: Stream, d: DataFrame)
    requires Valid(s) && s.state == Open && !Ended(s.hist.submitted) && d.streamId == s.id
    ensures Valid(Enqueued(s, d)) && !Stranded(Enqueued(s, d))
  {
    var h := s.hist;
    assert h.submitted + [d] == h.written + (s.pending + [d]);
    if h.written != [] {
      assert h.submitted[|h.written| - 1] == h.written[|h.written| - 1];
    }
  }

  /** Stream and writer after a DATA frame was sent on an open stream. */
  function AfterData(v: View, d: DataFrame): View {
    if v.s.pending == [] && Fits(v, |d.data|)
    then View(Wrote(Enqueued(v.s, d)), WriteFrame(v.w.(sendWindow := v.w.sendWindow - |d.data|), Data(d)))
    else v.(s := Enqueued(v.s, d))
  }

  lemma AfterDataIsSendFrame(v: View, d: DataFrame)
    requires v.s.state == Open
    ensures SendFrame(v, Data(d)) == Ok(AfterData(v, d))
  {
    if v.s.pending == [] {
      assert Enqueued(v.s, d).pending[1..] == [];
    }
  }

  /** A DATA frame is written now or queued, never dropped, never out of order. */
  ghost predicate Accepts(v: View, d: DataFrame, v': View) {
    && Valid(v'.s) && Evolves(v, v') && !Stranded(v'.s)
    && v'.s.hist.submitted == v.s.hist.submitted + [d]
    && v'.s.state == (if d.endStream && v'.s.pending == [] then HalfClosedLocal else Open)
    && (if v.s.pending == [] && v.s.sendWindow > |d.data| && v.w.sendWindow > |d.data|
        then v'.w.log == v.w.log + [Data(d)] && v'.s.pending == [] && v'.w.sendWindow == v.w.sendWindow - |d.data|
        else v'.w == v.w && v'.s.pending == v.s.pending + [d])
    && (Settled(v.s, v.w.sendWindow) ==> Settled(v'.s, v'.w.sendWindow))
    && v'.w.completions == v.w.completions
  }

  lemma QueueingKeeps(v: View, d: DataFrame)
    requires Valid(v.s) && v.s.state == Open && !Ended(v.s.hist.submitted) && d.streamId == v.s.id
    requires v.s.pending != [] || !Fits(v, |d.data|)
    ensures Accepts(v, d, v.(s := Enqueued(v.s, d)))
  {
    EnqueuedValid(v.s, d);
    hide Valid, Bytes, Payload;
  }

  lemma WritingKeeps(v: View, d: DataFrame)
    requires Valid(v.s) && v.s.state == Open && !Ended(v.s.hist.submitted) && d.streamId == v.s.id
    requires v.s.pending == [] && Fits(v, |d.data|)
    ensures Accepts(v, d,
            View(Wrote(Enqueued(v.s, d)), WriteFrame(v.w.(sendWindow := v.w.sendWindow - |d.data|), Data(d))))
  {
    EnqueuedValid(v.s, d);
    assert Enqueued(v.s, d).pending == [d];
    WroteValid(Enqueued(v.s, d));
    hide Valid, Bytes, Payload;
  }

  lemma AfterDataKeeps(v: View, d: DataFrame)
    requires Valid(v.s) && v.s.state == Open && !Ended(v.s.hist.submitted) && d.streamId == v.s.id
    ensures Accepts(v, d, AfterData(v, d))
  {
    hide Valid, Accepts;
    if v.s.pending == [] && Fits(v, |d.data|) {
      WritingKeeps(v, d);
    } else {
      QueueingKeeps(v, d);
    }
  }

  lemma OutgoingControl(s: Stream, f: Frame)
    requires Valid(s) && !f.Data? && (f.Headers? ==> s.state == Idle)
    ensures Outgoing(s.state, f).Ok?
    ensures var sets := Outgoing(s.state, f).value;
            && Walk([s.state] + sets)
            && (s.state == Closed ==> LastOf(s.state, sets) == Closed)
            && (s.state in {Open, HalfClosedRemote} ==> LastOf(s.state, sets) in {s.state, Closed})
            && (f.RstStream? ==> LastOf(s.state, sets) == Closed)
            && (f.WindowUpdate? ==> sets == [])
  {
    NotReservedLocal(s);
    OutgoingWalks(s.state, f);
    hide Valid;
  }

  /** The stream after a frame other than DATA was sent. */
  function Controlled(s: Stream, f: Frame): Stream
    requires Outgoing(s.state, f).Ok?
  {
    var s1 := if f.Headers? then s.(requestHeaders := s.requestHeaders + f.headers) else s;
    SetStates(s1, Outgoing(s.state, f).value)
  }

  /** Stream and writer after a frame other than DATA was sent, before the check that the stream has closed. */
  function AfterControl(v: View, f: Frame): View
    requires Outgoing(v.s.state, f).Ok?
  {
    View(Controlled(v.s, f), WriteFrame(v.w, f))
  }

  lemma ControlledValid(s: Stream, f: Frame)
    requires Valid(s) && !f.Data? && (f.Headers? ==> s.state == Idle && s.hist.submitted == [])
    ensures Outgoing(s.state, f).Ok?
    ensures var s' := Controlled(s, f);
            && Valid(s') && s.hist.path <= s'.hist.path
            && (f.RstStream? ==> s'.state == Closed)
            && (f.WindowUpdate? ==> s' == s)
  {
    hide Bytes, Payload, Outgoing, Lifetime, Walk, EndsOnlyLast, AllFor;
    OutgoingControl(s, f);
    var sets := Outgoing(s.state, f).value;
    SetStatesValid(if f.Headers? then s.(requestHeaders := s.requestHeaders + f.headers) else s, sets);
    assert s.hist.path + [] == s.hist.path;
  }

  lemma AfterControlKeeps(v: View, f: Frame)
    requires Valid(v.s) && !f.Data? && (f.Headers? ==> v.s.state == Idle && v.s.hist.submitted == [])
    ensures Outgoing(v.s.state, f).Ok?
    ensures var v' := AfterControl(v, f);
            && Valid(v'.s) && Evolves(v, v') && SubmitsNothing(v, v')
            && (f.RstStream? ==> v'.s.state == Closed)
            && (f.WindowUpdate? ==> v'.s == v.s)
  {
    hide Valid, Bytes, Outgoing;
    ControlledValid(v.s, f);
  }

  /** Frames other than DATA go out at once; a panic needs HEADERS in a state that forbids them. */
  lemma SendControlFrameKeeps(v: View, f: Frame)
    requires Valid(v.s) && !f.Data? && (f.Headers? ==> v.s.state == Idle && v.s.hist.submitted == [])
    ensures SendFrame(v, f).Ok?
    ensures var v' := SendFrame(v, f).value;
            && Valid(v'.s) && Evolves(v, v') && SubmitsNothing(v, v') && CompletesOnClose(v, v')
            && v'.s.pending == v.s.pending
            && v'.s.sendWindow == v.s.sendWindow
            && v'.w.sendWindow == v.w.sendWindow
            && v'.w.log == v.w.log + [f]
            && v'.s.err == v.s.err
            && (f.RstStream? ==> v'.s.state == Closed)
            && (f.WindowUpdate? ==> v'.s == v.s && v'.w.completions == v.w.completions)
  {
    hide Valid, SubmitsNothing, Outgoing, Bytes, Extends;
    AfterControlKeeps(v, f);
    var v1 := AfterControl(v, f);
    assert SendFrame(v, f) == Ok(FinalizeIfNewlyClosed(v.s, v1));
    hide SendFrame, SetStates;
    FinalizedControl(v, v1);
  }

  lemma FinalizedControl(v: View, v1: View)
    requires Valid(v1.s) && Evolves(v, v1) && SubmitsNothing(v, v1) && v1.w.completions == v.w.completions
    ensures var v' := FinalizeIfNewlyClosed(v.s, v1);
            && Valid(v'.s) && Evolves(v, v') && SubmitsNothing(v, v') && CompletesOnClose(v, v')
            && v'.s == v1.s && v'.w.sendWindow == v1.w.sendWindow && v'.w.log == v1.w.log
            && (v1.s.state == v.s.state ==> v'.w.completions == v.w.completions)
  {
    hide Valid, Bytes, Extends;
  }

  lemma CloseWithErrorKeeps(v: View, code: ErrorCode)
    requires Valid(v.s)
    ensures CloseWithError(v, code).Ok?
    ensures var v' := CloseWithError(v, code).value;
            && Keeps(v, v') && CompletesOnClose(v, v')
            && v'.s.state == Closed
            && v'.s.pending == v.s.pending
            && v'.s.sendWindow == v.s.sendWindow
            && v'.w.sendWindow == v.w.sendWindow
            && (v.s.state == Closed ==> v' == v)
  {
    if v.s.state != Closed {
      SendControlFrameKeeps(v.(s := v.s.(err := Some(ClosedByClient(code)))), RstStream(v.s.id, code));
    }
  }

  /** The stream with the received bytes accounted and the receive window as it will be. */
  function Accounted(s: Stream, size: nat): Stream {
    var left := s.receiveWindow - size;
    if left < RECEIVE_THRESHOLD then
      s.(receiveWindow := s.initialReceiveWindow,
         hist := s.hist.(received := s.hist.received + size,
             refilled := s.hist.refilled + ToUint32(s.initialReceiveWindow - left)))
    else s.(receiveWindow := left, hist := s.hist.(received := s.hist.received + size))
  }

  lemma AccountedKeeps(v: View, size: nat)
    requires Valid(v.s)
    ensures Keeps(v, v.(s := Accounted(v.s, size)))
  {
  }

  /** Accounting writes at most a WINDOW_UPDATE, and touches nothing but the receive window. */
  lemma AccountDataKeeps(v: View, size: nat)
    requires Valid(v.s)
    ensures AccountData(v, size).Ok?
    ensures var v' := AccountData(v, size).value;
            && Keeps(v, v')
            && v'.s == Accounted(v.s, size)
            && v'.w.sendWindow == v.w.sendWindow
            && v'.w.completions == v.w.completions
            && v'.w.log == (if v.s.receiveWindow - size < RECEIVE_THRESHOLD
                            then v.w.log + [WindowUpdate(v.s.id,
                                ToUint32(v.s.initialReceiveWindow - (v.s.receiveWindow - size)))]
                            else v.w.log)
  {
    hide ToUint32, Keeps, Valid;
    var left := v.s.receiveWindow - size;
    var v1 := v.(s := Accounted(v.s, size));
    AccountedKeeps(v, size);
    AccountedAlike(v, size);
    if left < RECEIVE_THRESHOLD {
      var f := WindowUpdate(v.s.id, ToUint32(v.s.initialReceiveWindow - left));
      assert AccountData(v, size) == SendFrame(v1, f) by { hide SendFrame; }
      hide AccountData, Accounted;
      SendControlFrameKeeps(v1, f);
      hide SendFrame;
      UpdatingKeeps(v1, SendFrame(v1, f).value);
      KeepsTransitive(v, v1, SendFrame(v1, f).value);
    }
  }

  lemma AccountedAlike(v: View, size: nat)
    requires Valid(v.s)
    ensures Valid(Accounted(v.s, size))
  {
  }

  lemma UpdatingKeeps(v: View, v': View)
    requires Valid(v'.s) && Evolves(v, v') && v'.s == v.s && v'.w.sendWindow == v.w.sendWindow
    ensures Keeps(v, v')
  {
    hide Conserves;
  }

  /** Receipt of `f` in state `st` makes the client give the stream up, or tells it that the server did. */
  predicate Resets(st: State, f: Frame) {
    || f.RstStream?
    || Incoming(st, f).None?
    || (f.Headers? && !f.endHeaders)
    || (f.PushPromise? && !f.endHeaders)
  }

  /** Stream and writer after a WINDOW_UPDATE was added but nothing drained yet. */
  function Credited(v: View, f: Frame): View {
    if f.WindowUpdate? then v.(s := AddCredit(v.s, f.increment)) else v
  }

  lemma IncomingValid(s: Stream, f: Frame)
    requires Valid(s) && Incoming(s.state, f).Some?
    ensures Valid(SetStates(s, Incoming(s.state, f).value))
    ensures s.hist.path <= SetStates(s, Incoming(s.state, f).value).hist.path
    ensures s.state == Closed ==> SetStates(s, Incoming(s.state, f).value).state == Closed
    ensures !f.RstStream? && !Stranded(s) ==> !Stranded(SetStates(s, Incoming(s.state, f).value))
  {
    NotReservedLocal(s);
    IncomingWalks(s.state, f);
    SetStatesValid(s, Incoming(s.state, f).value);
    if s.pending != [] && !Stranded(s) {
      HeadMayBeSent(s);
    }
  }

  lemma KeepsTransitive(a: View, b: View, c: View)
    requires Keeps(a, b) && Keeps(b, c)
    ensures Keeps(a, c)
  {
    hide Valid, Settled, Bytes;
  }

  lemma SetStatesKeeps(v: View, f: Frame)
    requires Valid(v.s) && Incoming(v.s.state, f).Some?
    ensures Keeps(v, v.(s := SetStates(v.s, Incoming(v.s.state, f).value)))
  {
    IncomingValid(v.s, f);
    hide Valid, Bytes, Incoming;
  }

  lemma FinalizeKeeps(before: Stream, v: View)
    requires Valid(v.s)
    ensures Keeps(v, FinalizeIfNewlyClosed(before, v))
  {
    hide Valid, Bytes;
  }

  lemma FinalizeWritesNothing(before: Stream, v: View)
    ensures FinalizeIfNewlyClosed(before, v).s == v.s && FinalizeIfNewlyClosed(before, v).w.log == v.w.log
  {
  }

  predicate EndsBlockEarly(f: Frame) {
    (f.Headers? || f.PushPromise?) && !f.endHeaders
  }

  /** What the stream has collected for its command plays no part in flow control. */
  lemma ContentKeeps(v: View, s: Stream)
    requires Valid(v.s)
    requires s == v.s.(requestHeaders := s.requestHeaders, responseHeaders := s.responseHeaders,
                       responseBody := s.responseBody, err := s.err)
    ensures Keeps(v, v.(s := s))
  {
  }

  lemma CreditKeeps(v: View, f: Frame)
    requires Valid(v.s) && f.WindowUpdate?
    ensures Dispatch(v, f) == ProcessPending(Credited(v, f))
    ensures Dispatch(v, f).Ok? ==> Keeps(v, Dispatch(v, f).value)
  {
    ProcessPendingKeeps(Credited(v, f));
    if ProcessPending(Credited(v, f)).Ok? {
      var v' := ProcessPending(Credited(v, f)).value;
      assert Evolves(v, Credited(v, f));
      assert Evolves(v, v') by { hide Bytes, ProcessPending; }
    }
    hide Bytes, ProcessPending, Evolves;
  }

  lemma DispatchKeeps(v: View, f: Frame)
    requires Valid(v.s)
    ensures Dispatch(v, f).Crash? <==> f.WindowUpdate? && Stranded(v.s) && Fits(Credited(v, f), |v.s.pending[0].data|)
    ensures Dispatch(v, f).Crash? ==> Dispatch(v, f) == Crash(IllegalStreamState)
    ensures Dispatch(v, f).Ok? ==>
              var v' := Dispatch(v, f).value;
              && Keeps(v, v')
              && (if f.WindowUpdate? then v'.w.completions == v.w.completions && (!Stranded(v.s) ==> !Stranded(v'.s))
                  else if EndsBlockEarly(f)
                      then v'.s.pending == v.s.pending && v'.s.state == Closed && CompletesOnClose(v, v')
                  else v'.s.pending == v.s.pending && v'.s.state == v.s.state && v'.w.completions == v.w.completions)
  {
    match f {
      case Data(d) =>
        AccountDataKeeps(v, |d.data|);
        var v1 := AccountData(v, |d.data|).value;
        var v2 := Dispatch(v, f).value;
        ContentKeeps(v1, v2.s);
        KeepsTransitive(v, v1, v2);
      case WindowUpdate(_, increment) =>
        CreditKeeps(v, f);
        ProcessPendingKeeps(Credited(v, f));
      case Headers(_, _, _, _, _) =>
        CloseWithErrorKeeps(v, REFUSED_STREAM);
        if f.endHeaders { ContentKeeps(v, Dispatch(v, f).value.s); }
      case PushPromise(_, _, _, _) =>
        CloseWithErrorKeeps(v, REFUSED_STREAM);
        if f.endHeaders { ContentKeeps(v, Dispatch(v, f).value.s); }
      case _ =>
        ContentKeeps(v, Dispatch(v, f).value.s);
    }
    hide Keeps, Valid, AccountData, ProcessPending, CloseWithError;
  }

  /** Every frame that can arrive for a stream, in every state. */
  lemma ReceiveFrameKeeps(v: View, f: Frame)
    requires Valid(v.s)
    ensures ReceiveFrame(v, f).Crash? <==>
              f.WindowUpdate? && Stranded(v.s) && Fits(Credited(v, f), |v.s.pending[0].data|)
    ensures ReceiveFrame(v, f).Crash? ==> ReceiveFrame(v, f) == Crash(IllegalStreamState)
    ensures ReceiveFrame(v, f).Ok? ==> Keeps(v, ReceiveFrame(v, f).value)
  {
    if Incoming(v.s.state, f).None? {
      CloseWithErrorKeeps(v, STREAM_CLOSED);
    } else {
      var v1 := v.(s := SetStates(v.s, Incoming(v.s.state, f).value));
      SetStatesKeeps(v, f);
      DispatchKeeps(v1, f);
      if f.WindowUpdate? {
        assert v.s.hist.path + [] == v.s.hist.path;
        assert v1 == v;
      }
      if Dispatch(v1, f).Ok? {
        var v2 := Dispatch(v1, f).value;
        KeepsTransitive(v, v1, v2);
        FinalizeKeeps(v.s, v2);
        KeepsTransitive(v, v2, FinalizeIfNewlyClosed(v.s, v2));
      }
    }
    hide Dispatch, CloseWithError, FinalizeIfNewlyClosed, SetStates, Keeps, Valid;
  }

  /** A received frame leaves a queue behind on a closed stream exactly when it is a reset and something waits. */
  lemma ReceiveFrameStrands(v: View, f: Frame)
    requires Valid(v.s) && !Stranded(v.s)
    ensures ReceiveFrame(v, f).Ok?
    ensures Stranded(ReceiveFrame(v, f).value.s) <==> v.s.pending != [] && Resets(v.s.state, f)
  {
    ReceiveFrameKeeps(v, f);
    if Incoming(v.s.state, f).None? {
      CloseWithErrorKeeps(v, STREAM_CLOSED);
    } else {
      IncomingValid(v.s, f);
      DispatchKeeps(v.(s := SetStates(v.s, Incoming(v.s.state, f).value)), f);
    }
    hide Dispatch, CloseWithError, Valid, Keeps;
  }

  /**
   The frame makes the stream complete its command in SendFrame and then again in ReceiveFrame: a header block cut
   short, accepted by the state, that does not itself close the stream.
   */
  predicate CompletesTwice(s: Stream, f: Frame) {
    && EndsBlockEarly(f)
    && s.command.Some?
    && Incoming(s.state, f).Some?
    && LastOf(s.state, Incoming(s.state, f).value) != Closed
  }

  /** A received frame completes the command once, and only on closing, unless the block is cut short. */
  lemma ReceiveFrameCompletes(v: View, f: Frame)
    requires Valid(v.s) && ReceiveFrame(v, f).Ok?
    ensures CompletesOnClose(v, ReceiveFrame(v, f).value) <==> !CompletesTwice(v.s, f)
    ensures CompletesTwice(v.s, f) ==> |ReceiveFrame(v, f).value.w.completions| == |v.w.completions| + 2
  {
    if Incoming(v.s.state, f).None? {
      CloseWithErrorKeeps(v, STREAM_CLOSED);
    } else {
      DispatchCompletes(v, f);
    }
    hide Dispatch, CloseWithError, Valid, Keeps;
  }

  lemma DispatchCompletes(v: View, f: Frame)
    requires Valid(v.s) && Incoming(v.s.state, f).Some?
    requires ReceiveFrame(v, f).Ok?
    ensures CompletesOnClose(v, ReceiveFrame(v, f).value) <==> !CompletesTwice(v.s, f)
    ensures CompletesTwice(v.s, f) ==> |ReceiveFrame(v, f).value.w.completions| == |v.w.completions| + 2
  {
    hide Valid, Keeps, CompletesTwice, CompletesOnClose, FinalizeIfNewlyClosed, Dispatch;
    var v1 := v.(s := SetStates(v.s, Incoming(v.s.state, f).value));
    IncomingValid(v.s, f);
    assert Dispatch(v1, f).Ok?;
    var v2 := Dispatch(v1, f).value;
    assert ReceiveFrame(v, f) == Ok(FinalizeIfNewlyClosed(v.s, v2));
    hide ReceiveFrame, Incoming;
    DispatchKeeps(v1, f);
    KeepsCommand(v1, v2);
    assert EndsBlockEarly(f) ==> CompletesOnClose(v1, v2);
    FinalizeCompletes(v, v1, v2, f);
  }

  lemma KeepsCommand(v: View, v': View)
    requires Keeps(v, v')
    ensures v'.s.command == v.s.command
  {
    hide Valid, Conserves;
  }

  lemma FinalizeCompletes(v: View, v1: View, v2: View, f: Frame)
    requires Incoming(v.s.state, f).Some? && v1.s.state == LastOf(v.s.state, Incoming(v.s.state, f).value)
    requires v1.w == v.w && v1.s.command == v.s.command == v2.s.command
    requires v.s.state == Closed ==> v1.s.state == Closed
    requires if EndsBlockEarly(f) then v2.s.state == Closed && CompletesOnClose(v1, v2)
             else v2.w.completions == v.w.completions
    requires v.s.state == Closed && EndsBlockEarly(f) ==> v1.s.state == Closed
    ensures CompletesOnClose(v, FinalizeIfNewlyClosed(v.s, v2)) <==> !CompletesTwice(v.s, f)
    ensures CompletesTwice(v.s, f) ==> |FinalizeIfNewlyClosed(v.s, v2).w.completions| == |v.w.completions| + 2
  {
    hide Incoming;
  }
}
