/** What the receiving side collects for a stream, and that nothing else changes it. */
module ReceiveTheorems {
  import opened Frames
  import opened StreamState
  import opened StreamSpec
  import opened ConnectionSpec
  import opened Runs
  import opened Actions
  import SL = StreamLemmas

  /** The response so far, and whether more of it is accepted. */
  datatype Intake = Intake(accepting: bool, headers: seq<HeaderField>, body: seq<byte>)

  function IntakeOf(s: Stream): Intake {
    Intake(s.state in {Open, HalfClosedLocal}, s.responseHeaders, s.responseBody)
  }

  /** A stream whose request has been sent, or whose promised response has begun. */
  predicate Started(s: Stream) {
    s.state in {Open, HalfClosedRemote, HalfClosedLocal, Closed}
  }

  /** What one frame adds, without any other state of the client. */
  function Take(x: Intake, f: Frame): Intake {
    if !x.accepting then x
    else match f
      case Data(d) => Intake(!d.endStream, x.headers, x.body + d.data)
      case Headers(_, endStream, endHeaders, _, headers) =>
        if endHeaders then Intake(!endStream, x.headers + headers, x.body) else x.(accepting := false)
      case RstStream(_, _) => x.(accepting := false)
      case _ => x
  }

  function TakeAll(x: Intake, fs: seq<Frame>): Intake {
    if fs == [] then x else Take(TakeAll(x, fs[..|fs| - 1]), fs[|fs| - 1])
  }

  /** The frames among the inputs that are addressed to stream `id`. */
  function FramesFor(inputs: seq<Input>, id: StreamId): seq<Frame> {
    if inputs == [] then []
    else
      var e := inputs[|inputs| - 1].event;
      FramesFor(inputs[..|inputs| - 1], id) +
      if e.Received? && e.frame.GetStreamId() == id && !e.frame.PushPromise? then [e.frame] else []
  }

  // ---------------------------------------------------------------- one stream

  lemma CloseIntake(v: View, code: ErrorCode)
    requires SL.Valid(v.s)
    ensures CloseWithError(v, code).Ok?
    ensures IntakeOf(CloseWithError(v, code).value.s) == IntakeOf(v.s).(accepting := false)
    ensures CloseWithError(v, code).value.s.state == Closed
  {
    SL.CloseWithErrorKeeps(v, code);
    hide SL.Valid, SL.Keeps;
  }

  lemma {:induction false} DrainIntake(v: View)
    requires SL.Valid(v.s) && ProcessPending(v).Ok?
    ensures IntakeOf(ProcessPending(v).value.s) == IntakeOf(v.s)
    ensures Started(v.s) ==> Started(ProcessPending(v).value.s)
    decreases |v.s.pending|
  {
    SL.ProcessPendingKeeps(v);
    if v.s.pending != [] && Fits(v, |v.s.pending[0].data|) {
      SL.HeadMayBeSent(v.s);
      SL.WriteHead(v);
      var v1 := SendData(v.(s := v.s.(pending := v.s.pending[1..])), v.s.pending[0], true).value;
      assert v1.s == SL.Wrote(v.s);
      assert IntakeOf(v1.s) == IntakeOf(v.s) && Started(v1.s);
      hide SL.Valid, SL.Keeps, SendData, SL.Wrote, IntakeOf;
      DrainIntake(v1);
    }
  }

  /** A started stream collects exactly what the frame says, whatever its upload is doing. */
  lemma ReceiveIntake(v: View, f: Frame)
    requires SL.Valid(v.s) && Started(v.s) && !f.PushPromise? && ReceiveFrame(v, f).Ok?
    ensures IntakeOf(ReceiveFrame(v, f).value.s) == Take(IntakeOf(v.s), f)
    ensures Started(ReceiveFrame(v, f).value.s)
  {
    if Incoming(v.s.state, f).None? {
      CloseIntake(v, STREAM_CLOSED);
      hide CloseWithError, SL.Valid;
    } else {
      var s1 := SetStates(v.s, Incoming(v.s.state, f).value);
      SL.IncomingValid(v.s, f);
      DispatchIntake(v.(s := s1), f);
      hide Dispatch, SL.Valid;
    }
  }

  lemma DispatchIntake(v: View, f: Frame)
    requires SL.Valid(v.s) && !f.PushPromise? && Dispatch(v, f).Ok?
    ensures var s := Dispatch(v, f).value.s;
            && s.responseBody == (if f.Data? then v.s.responseBody + f.frame.data else v.s.responseBody)
            && s.responseHeaders ==
                (if f.Headers? && f.endHeaders then v.s.responseHeaders + f.headers else v.s.responseHeaders)
            && (if f.Headers? && !f.endHeaders then s.state == Closed
                else IntakeOf(s).accepting == IntakeOf(v.s).accepting && (Started(v.s) ==> Started(s)))
  {
    match f {
      case Data(d) => SL.AccountDataKeeps(v, |d.data|);
      case Headers(_, _, _, _, _) => CloseIntake(v, REFUSED_STREAM);
      case WindowUpdate(_, increment) =>
        SL.CreditKeeps(v, f);
        CreditedValid(v, f);
        DrainIntake(SL.Credited(v, f));
      case _ =>
    }
    hide AccountData, CloseWithError, ProcessPending, SL.Valid, SL.Keeps;
  }

  lemma CreditedValid(v: View, f: Frame)
    requires SL.Valid(v.s)
    ensures SL.Valid(SL.Credited(v, f).s)
  {
  }

  // ---------------------------------------------------------------- the other streams

  /** Stream object `h` is the one that frames for `id` reach, and it is started. */
  predicate Serves(c: Connection, id: StreamId, h: nat) {
    Known(c, id) && c.streams[id] == h && Started(c.store[h])
  }

  /** newStream hands out `id` between the two states. */
  predicate Reissued(c: Connection, c': Connection, id: StreamId) {
    |c.hist.issuedIds| <= |c'.hist.issuedIds| && id in c'.hist.issuedIds[|c.hist.issuedIds|..]
  }

  predicate Untouched(c: Connection, c': Connection, id: StreamId, h: nat)
    requires h < |c.store|
  {
    Serves(c', id, h) && IntakeOf(c'.store[h]) == IntakeOf(c.store[h])
  }

  predicate Reaches(a: Action, id: StreamId) {
    (a.Delivers? || a.Refuses?) && a.id == id
  }

  lemma PutElsewhere(c: Connection, id: StreamId, h: nat, k: nat, v: View)
    requires Serves(c, id, h) && k < |c.store| && k != h
    ensures Untouched(c, Put(c, k, v), id, h)
  {
  }

  lemma OtherHandle(c: Connection, id: StreamId, id': StreamId)
    requires Sound(c) && Known(c, id) && Known(c, id') && id != id'
    ensures c.streams[id] != c.streams[id']
  {
    Lookup(c, id);
    Lookup(c, id');
  }

  lemma DrainsUntouched(c: Connection, id: StreamId, h: nat, id': StreamId)
    requires Sound(c) && Serves(c, id, h) && DrainOne(c, id').Ok?
    ensures Untouched(c, DrainOne(c, id').value, id, h)
  {
    hide Sound, SL.Valid, ProcessPending, Serves, Untouched, Silenced, IntakeOf;
    if Known(c, id') {
      Lookup(c, id');
      var k := c.streams[id'];
      var v := ViewOf(c, k);
      assert ProcessPending(v).Ok? && DrainOne(c, id').Ok? by { DrainNeedsProcess(c, id'); }
      var v1 := ProcessPending(v).value;
      DrainOneIs(c, id', v1);
      hide DrainOne;
      if k == h {
        assert Started(v.s) by { ServesStarted(c, id, h); }
        DrainIntake(v);
        SilencedIntake(v, v1);
        SameIntake(c, id, h, Silenced(v, v1));
      } else {
        PutElsewhere(c, id, h, k, Silenced(v, v1));
      }
    } else {
      SameUntouched(c, c, id, h);
    }
  }

  lemma ServesStarted(c: Connection, id: StreamId, h: nat)
    requires Serves(c, id, h)
    ensures h < |c.store| && Started(c.store[h])
  {
  }

  lemma SilencedIntake(v: View, v1: View)
    ensures IntakeOf(Silenced(v, v1).s) == IntakeOf(v1.s) && Started(Silenced(v, v1).s) == Started(v1.s)
  {
  }

  lemma SameIntake(c: Connection, id: StreamId, h: nat, v: View)
    requires Serves(c, id, h) && IntakeOf(v.s) == IntakeOf(c.store[h]) && Started(v.s)
    ensures Untouched(c, Put(c, h, v), id, h)
  {
  }

  lemma RequestsUntouched(c: Connection, id: StreamId, h: nat, cmd: HttpCommand)
    requires Sound(c) && Serves(c, id, h) && DoRequest(c, cmd).Ok? && !Reissued(c, DoRequest(c, cmd).value, id)
    ensures Untouched(c, DoRequest(c, cmd).value, id, h)
  {
    hide SendRequest, NextId, Sound;
    var c1 := NewStream(c, cmd);
    NewStreamKeeps(c, cmd);
    assert c1.hist.issuedIds == c.hist.issuedIds + [NextId(c.streams.Keys)];
    assert DoRequest(c, cmd).value.hist.issuedIds[|c.hist.issuedIds|..] == [NextId(c.streams.Keys)];
    assert c1.store[h] == c1.store[..|c.store|][h];
    hide NewStream;
  }

  lemma TakesUntouched(c: Connection, id: StreamId, h: nat, cmd: HttpCommand, id': StreamId)
    requires Serves(c, id, h) && id' in c.cache && c.cache[id'] < |c.store|
    ensures Untouched(c, TakeFromCache(c, cmd, id'), id, h)
  {
    hide Finalize;
  }

  lemma SameUntouched(c: Connection, c': Connection, id: StreamId, h: nat)
    requires Serves(c, id, h) && c'.store == c.store && c'.streams == c.streams
    ensures Untouched(c, c', id, h)
  {
  }

  lemma BookkeepingUntouched(c: Connection, c': Connection, id: StreamId, h: nat)
    requires Serves(c, id, h) && Bookkeeping(c, c')
    ensures Untouched(c, c', id, h)
  {
  }

  /** No action but one that reaches the stream changes what it has collected. */
  lemma ActUntouched(c: Connection, a: Action, id: StreamId, h: nat)
    requires Sound(c) && Serves(c, id, h) && Act(c, a).Ok? && !Reaches(a, id) && !Reissued(c, Act(c, a).value, id)
    ensures Untouched(c, Act(c, a).value, id, h)
  {
    hide Sound, Untouched, Serves, ReceiveFrame, CloseWithError, DrainOne, DoRequest, TakeFromCache, Bookkeeping,
         AccountConnectionData, HandleSettings, ExecutePing, HandlePing, Reissued;
    match a {
      case Delivers(id', f) => if Known(c, id') { ReachesElsewhere(c, a, id, h); } else { SameUntouched(c, c, id, h); }
      case Refuses(id') => if Known(c, id') { ReachesElsewhere(c, a, id, h); } else { SameUntouched(c, c, id, h); }
      case Drains(id') => DrainsUntouched(c, id, h, id');
      case Creates(id') => CreatesUntouched(c, id, h, id');
      case Requests(cmd) => RequestsUntouched(c, id, h, cmd);
      case Takes(cmd, id') =>
        SameUntouched(c, c, id, h);
        if id' in c.cache && c.cache[id'] < |c.store| { TakesUntouched(c, id, h, cmd, id'); }
      case Fails(cmd, result) => SameUntouched(c, Act(c, a).value, id, h);
      case Counts(cmd) => SameUntouched(c, Act(c, a).value, id, h);
      case Caches(id') => SameUntouched(c, Act(c, a).value, id, h);
      case Credits(increment) => SameUntouched(c, Act(c, a).value, id, h);
      case Accounts(size) => AccountConnectionDataKeeps(c, size); BookkeepingUntouched(c, Act(c, a).value, id, h);
      case Configures(settings, ack) =>
        HandleSettingsKeeps(c, settings, ack);
        BookkeepingUntouched(c, Act(c, a).value, id, h);
      case Pings(cmd) => PingKeeps(c, cmd); BookkeepingUntouched(c, Act(c, a).value, id, h);
      case Pongs(payload, ack) => HandlePingKeeps(c, payload, ack); BookkeepingUntouched(c, Act(c, a).value, id, h);
      case Stops => SameUntouched(c, Act(c, a).value, id, h);
    }
  }

  lemma ReachesElsewhere(c: Connection, a: Action, id: StreamId, h: nat)
    requires Sound(c) && Serves(c, id, h) && (a.Delivers? || a.Refuses?) && a.id != id && Known(c, a.id)
    requires Act(c, a).Ok?
    ensures Untouched(c, Act(c, a).value, id, h)
  {
    OtherHandle(c, id, a.id);
    hide Sound, ReceiveFrame, CloseWithError, Untouched;
    var k := c.streams[a.id];
    if a.Delivers? {
      PutElsewhere(c, id, h, k, ReceiveFrame(ViewOf(c, k), a.frame).value);
    } else {
      PutElsewhere(c, id, h, k, CloseWithError(ViewOf(c, k), REFUSED_STREAM).value);
    }
  }

  lemma CreatesUntouched(c: Connection, id: StreamId, h: nat, id': StreamId)
    requires Serves(c, id, h)
    ensures Untouched(c, GetOrCreate(c, id'), id, h)
  {
  }

  lemma {:induction false} ActsUntouched(c: Connection, e: Event, acts: seq<Action>, id: StreamId, h: nat)
    requires Sound(c) && Serves(c, id, h) && ActAll(c, acts).Ok?
    requires forall k :: 0 <= k < |acts| ==> !Reaches(acts[k], id)
    requires !Reissued(c, ActAll(c, acts).value, id)
    ensures Untouched(c, ActAll(c, acts).value, id, h) && Sound(ActAll(c, acts).value)
    ensures Grows(c, ActAll(c, acts).value)
    decreases acts
  {
    hide Act, Sound, Serves, Reaches;
    if acts == [] {
      SameUntouched(c, c, id, h);
      GrowsReflexive(c);
    } else {
      var before, last := acts[..|acts| - 1], acts[|acts| - 1];
      var c1 := ActAll(c, before).value;
      ActAllGrows(c, before);
      ActKeeps(c1, last);
      var c2 := Act(c1, last).value;
      NotReissued(c, c1, c2, id);
      ActsUntouched(c, e, before, id, h);
      ActUntouched(c1, last, id, h);
      GrowsTransitive(c, c1, c2);
      hide Grows, Reissued, IntakeOf;
    }
  }

  lemma NotReissued(a: Connection, b: Connection, c: Connection, id: StreamId)
    requires Grows(a, b) && Grows(b, c) && !Reissued(a, c, id)
    ensures !Reissued(a, b, id) && !Reissued(b, c, id)
  {
    var (p, q, r) := (a.hist.issuedIds, b.hist.issuedIds, c.hist.issuedIds);
    assert r[|p|..] == q[|p|..] + r[|q|..];
  }

  lemma {:induction false} ActAllGrows(c: Connection, acts: seq<Action>)
    requires Sound(c) && ActAll(c, acts).Ok?
    ensures Sound(ActAll(c, acts).value) && Grows(c, ActAll(c, acts).value)
    decreases acts
  {
    hide Act, Sound, Grows;
    if acts == [] {
      GrowsReflexive(c);
    } else {
      var before, last := acts[..|acts| - 1], acts[|acts| - 1];
      ActAllGrows(c, before);
      ActKeeps(ActAll(c, before).value, last);
      GrowsTransitive(c, ActAll(c, before).value, ActAll(c, acts).value);
    }
  }

  // ---------------------------------------------------------------- steps and runs

  /** The input addresses a frame to stream `id`; promises are about another stream. */
  predicate Addresses(i: Input, id: StreamId) {
    i.event.Received? && i.event.frame.GetStreamId() == id && !i.event.frame.PushPromise?
  }

  predicate IsPromised(i: Input, id: StreamId) {
    i.event.Received? && i.event.frame.PushPromise? && i.event.frame.promisedStreamId == id
  }

  lemma AddressedIntake(c: Connection, i: Input, id: StreamId, h: nat)
    requires Sound(c) && Serves(c, id, h) && id != 0 && Addresses(i, id) && Step(c, i).Ok?
    ensures Serves(Step(c, i).value, id, h)
    ensures IntakeOf(Step(c, i).value.store[h]) == Take(IntakeOf(c.store[h]), i.event.frame)
  {
    hide Step, BeforeReceive, ReceiveOn, Sound, IntakeOf, Take, Serves;
    var f := i.event.frame;
    AddressedIs(c, i, id, h);
    ReceiveOnIntake(BeforeReceive(c, f), id, h, f);
  }

  lemma BeforeServes(c: Connection, f: Frame, id: StreamId, h: nat)
    requires Sound(c) && Serves(c, id, h) && f.GetStreamId() == id
    ensures var c1 := BeforeReceive(c, f); Sound(c1) && Serves(c1, id, h) && c1.store[h] == c.store[h]
  {
    hide Sound, Advances, AccountConnectionData, Started;
    BeforeReceiveAdvances(c, f);
    AdvancesIsSound(c, BeforeReceive(c, f));
    AccountingKeepsStreams(c, f);
  }

  lemma AddressedIs(c: Connection, i: Input, id: StreamId, h: nat)
    requires Sound(c) && Serves(c, id, h) && id != 0 && Addresses(i, id)
    ensures var c1 := BeforeReceive(c, i.event.frame);
            && Sound(c1) && Serves(c1, id, h) && c1.store[h] == c.store[h]
            && Step(c, i) == ReceiveOn(c1, h, i.event.frame)
  {
    var f := i.event.frame;
    BeforeServes(c, f, id, h);
    SoundIsWellFormed(c);
    hide BeforeReceive, ReceiveOn, Sound, HandleForStream;
    Routing(c, f);
  }

  lemma ReceiveOnIntake(c: Connection, id: StreamId, h: nat, f: Frame)
    requires Sound(c) && Serves(c, id, h) && !f.PushPromise? && ReceiveOn(c, h, f).Ok?
    ensures var c' := ReceiveOn(c, h, f).value;
            Serves(c', id, h) && IntakeOf(c'.store[h]) == Take(IntakeOf(c.store[h]), f)
  {
    Lookup(c, id);
    hide ReceiveFrame, SL.Valid, Sound, IntakeOf, Take;
    ReceiveIntake(ViewOf(c, h), f);
  }

  lemma OtherIntake(c: Connection, i: Input, id: StreamId, h: nat)
    requires Sound(c) && Serves(c, id, h) && !Addresses(i, id) && !IsPromised(i, id) && Step(c, i).Ok?
    requires !Reissued(c, Step(c, i).value, id)
    ensures Untouched(c, Step(c, i).value, id, h)
  {
    hide Step, ActAll, Sound, Serves, Reissued;
    var acts := StepActs(c, i);
    forall k | 0 <= k < |acts| ensures !Reaches(acts[k], id) {
      assert Belongs(i.event, acts[k]);
    }
    ActsUntouched(c, i.event, acts, id, h);
  }

  /**
   Stream isolation: from the moment a stream has started, the response it accumulates is that of the frames addressed
   to it, read in order, and of nothing else: not of other streams' frames, not of its own upload, not of credit or
   drains. Promises of its own id, and a reuse of its id by the client, are excluded.
   */
  lemma {:induction false} StreamIsolation(states: seq<Connection>, inputs: seq<Input>, j: nat, k: nat, id: StreamId,
      h: nat)
    requires IsRun(states, inputs) && j <= k < |states| && id != 0 && Serves(states[j], id, h)
    requires forall n :: j <= n < k ==> !IsPromised(inputs[n], id)
    requires !Reissued(states[j], states[k], id)
    ensures Serves(states[k], id, h)
    ensures IntakeOf(states[k].store[h]) == TakeAll(IntakeOf(states[j].store[h]), FramesFor(inputs[j..k], id))
    decreases k
  {
    hide IsRun, Step, Serves, IntakeOf, Take, Sound, Valid, Legal, WellFormed, Reissued, Grows, FramesFor, TakeAll;
    RunShape(states, inputs);
    ServesStarted(states[j], id, h);
    if j == k {
      NothingTaken(IntakeOf(states[j].store[h]), inputs, j, id);
    } else {
      var c, i := states[k - 1], inputs[k - 1];
      RunStep(states, inputs, k);
      RunGrows(states, inputs, j, k - 1);
      RunGrows(states, inputs, k - 1, k);
      NotReissued(states[j], c, states[k], id);
      StreamIsolation(states, inputs, j, k - 1, id, h);
      OneMore(IntakeOf(states[j].store[h]), inputs, j, k, id);
      if Addresses(i, id) {
        AddressedIntake(c, i, id, h);
      } else {
        OtherIntake(c, i, id, h);
      }
    }
  }

  lemma NothingTaken(x: Intake, inputs: seq<Input>, j: nat, id: StreamId)
    requires j <= |inputs|
    ensures TakeAll(x, FramesFor(inputs[j..j], id)) == x
  {
  }

  /** The response after one more event. */
  lemma OneMore(x: Intake, inputs: seq<Input>, j: nat, k: nat, id: StreamId)
    requires j < k <= |inputs|
    ensures var before := TakeAll(x, FramesFor(inputs[j..k - 1], id));
            TakeAll(x, FramesFor(inputs[j..k], id)) ==
            if Addresses(inputs[k - 1], id) then Take(before, inputs[k - 1].event.frame) else before
  {
    hide Take;
    var fs, i := FramesFor(inputs[j..k - 1], id), inputs[k - 1];
    assert inputs[j..k] == inputs[j..k - 1] + [i];
    FramesForAppend(inputs[j..k - 1], i, id);
    hide FramesFor;
    if Addresses(i, id) {
      assert (fs + [i.event.frame])[..|fs|] == fs;
    }
  }

  lemma FramesForAppend(inputs: seq<Input>, i: Input, id: StreamId)
    ensures FramesFor(inputs + [i], id) ==
            if Addresses(i, id) then FramesFor(inputs, id) + [i.event.frame] else FramesFor(inputs, id)
  {
    assert (inputs + [i])[..|inputs|] == inputs;
  }
}
