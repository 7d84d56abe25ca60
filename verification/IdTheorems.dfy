/** Which ids newStream hands out over a run, and when they are fresh. */
module IdTheorems {
  import opened Wrappers
  import opened Frames
  import opened StreamState
  import opened StreamSpec
  import opened ConnectionSpec
  import opened Runs
  import opened Actions
  import opened Ledger
  import RT = ReceiveTheorems

  const LAST_ID: StreamId := 0xFFFF_FFFF

  /** The map is empty or holds an odd id, and the addition of 2 cannot wrap. */
  predicate Allocatable(ids: set<StreamId>) {
    (ids == {} || exists id <- ids :: id % 2 == 1) && LAST_ID !in ids
  }

  /** A legal id for a new stream of a client (RFC 7540, section 5.1.1). */
  predicate IsFresh(id: StreamId, ids: set<StreamId>) {
    id % 2 == 1 && id !in ids && forall other <- ids :: other % 2 == 1 ==> other < id
  }

  /**
   newStream's choice is legal exactly when the map is empty or holds an odd id, and 2^32 - 1 is not in use. It is then
   1, or 2 more than the largest odd id; and it wraps to 1 where 2^32 - 1 is in use.
   */
  lemma NextIdIsFresh(ids: set<StreamId>)
    ensures IsFresh(NextId(ids), ids) <==> Allocatable(ids)
    ensures ids == {} ==> NextId(ids) == 1
    ensures Allocatable(ids) && ids != {} ==> NextId(ids) >= 3 && NextId(ids) - 2 in ids
    ensures LAST_ID in ids ==> NextId(ids) == 1
  {
    var odd := set id <- ids | id % 2 == 1;
    if odd != {} {
      var top: int := Max(odd);
      assert top in ids && forall other <- ids :: other % 2 == 1 ==> other in odd;
      assert NextId(ids) == ToUint32(top + 2);
      if top == LAST_ID {
        assert NextId(ids) == 1;
      } else {
        assert LAST_ID in ids ==> LAST_ID in odd;
        assert NextId(ids) == top + 2;
      }
    } else {
      assert forall other <- ids :: other % 2 == 1 ==> other in odd;
      assert LAST_ID in ids ==> LAST_ID in odd;
    }
  }

  /** Where only even ids are in use, the choice is 2, whether or not 2 is in use. */
  lemma EvenIdsMisleadTheCounter(ids: set<StreamId>)
    requires ids != {} && forall id <- ids :: id % 2 == 0
    ensures NextId(ids) == 2
  {
    var odd := set id <- ids | id % 2 == 1;
    assert odd == {};
  }

  // ---------------------------------------------------------------- steps

  ghost predicate KeepsStreams(c: Connection, c': Connection) {
    && c'.hist.issuedIds == c.hist.issuedIds
    && forall id <- c.streams :: id in c'.streams && c'.streams[id] == c.streams[id]
  }

  /** The map after a request. */
  ghost predicate AddsRequest(c: Connection, c': Connection) {
    && c'.streams == c.streams[NextId(c.streams.Keys) := |c.store|]
    && c'.hist.issuedIds == c.hist.issuedIds + [NextId(c.streams.Keys)]
  }

  /** Entries of the stream map are never removed, and only a request can replace one. */
  lemma StepOnStreams(c: Connection, i: Input)
    requires Sound(c) && WellFormed(c) && Step(c, i).Ok?
    ensures KeepsStreams(c, Step(c, i).value) || (i.event.Http? && AddsRequest(c, Step(c, i).value))
  {
    hide Sound, NextId;
    if i.event.Http? {
      hide ExecuteHttp;
      HttpOnStreams(c, i.event.command, i.order);
    } else {
      hide Step, Act;
      forall c1, a | Sound(c1) && KeepsStreams(c, c1) && Belongs(i.event, a) && Act(c1, a).Ok?
        ensures KeepsStreams(c, Act(c1, a).value)
      {
        ActOnStreams(c1, a);
      }
      StepKeepsInvariant(c, i, c1 => KeepsStreams(c, c1));
    }
  }

  lemma HttpOnStreams(c: Connection, cmd: HttpCommand, order: seq<StreamId>)
    requires Sound(c) && ExecuteHttp(c, cmd, order).Ok?
    ensures var c' := ExecuteHttp(c, cmd, order).value; KeepsStreams(c, c') || AddsRequest(c, c')
  {
    var c0 := CountCommand(c, cmd);
    CountCommandKeeps(c, cmd);
    SoundIsWellFormed(c0);
    var a := HttpAct(c0, cmd, order);
    hide Act, ByMethod, Sound, NextId;
    ActOnStreams(c0, a);
  }

  // ---------------------------------------------------------------- runs

  ghost predicate Issues(states: seq<Connection>, n: nat)
    requires n + 1 < |states|
  {
    |states[n].hist.issuedIds| < |states[n + 1].hist.issuedIds|
  }

  /** Whenever a request gets an id between states j and k, the stream map leaves room for a legal one. */
  ghost predicate AlwaysAllocatable(states: seq<Connection>, j: nat, k: nat)
    requires k < |states|
  {
    forall n :: j <= n < k && Issues(states, n) ==> Allocatable(states[n].streams.Keys)
  }

  ghost predicate Increasing(ids: seq<StreamId>) {
    && (forall j, k :: 0 <= j < k < |ids| ==> ids[j] < ids[k])
    && (forall k :: 0 <= k < |ids| ==> ids[k] % 2 == 1)
  }

  ghost predicate AllInUse(ids: seq<StreamId>, c: Connection) {
    forall k :: 0 <= k < |ids| ==> ids[k] in c.streams
  }

  lemma IdsIncreaseByOne(c: Connection, c': Connection)
    requires Increasing(c.hist.issuedIds) && AllInUse(c.hist.issuedIds, c)
    requires KeepsStreams(c, c') || (AddsRequest(c, c') && Allocatable(c.streams.Keys))
    ensures Increasing(c'.hist.issuedIds) && AllInUse(c'.hist.issuedIds, c')
  {
    NextIdIsFresh(c.streams.Keys);
    hide NextId, Allocatable;
  }

  /** Ids handed out over a run are odd, strictly increasing, and so never handed out again. */
  lemma {:induction false} IdsIncrease(states: seq<Connection>, inputs: seq<Input>, k: nat)
    requires IsRun(states, inputs) && k < |states| && AlwaysAllocatable(states, 0, k)
    ensures Increasing(states[k].hist.issuedIds) && AllInUse(states[k].hist.issuedIds, states[k])
  {
    hide IsRun, Step, Sound, Valid, Legal, WellFormed, Increasing, AllInUse, KeepsStreams, AddsRequest, Allocatable,
         NewConnection;
    RunShape(states, inputs);
    if k == 0 {
      NothingIssued();
    } else {
      var c, c', i := states[k - 1], states[k], inputs[k - 1];
      IdsIncrease(states, inputs, k - 1);
      RunStep(states, inputs, k);
      StepOnStreams(c, i);
      if AddsRequest(c, c') {
        AddingIssues(c, c');
        assert Issues(states, k - 1);
      }
      IdsIncreaseByOne(c, c');
    }
  }

  lemma NothingIssued()
    ensures Increasing(NewConnection().hist.issuedIds) && AllInUse(NewConnection().hist.issuedIds, NewConnection())
  {
  }

  lemma AddingIssues(c: Connection, c': Connection)
    requires AddsRequest(c, c')
    ensures |c.hist.issuedIds| < |c'.hist.issuedIds|
  {
  }

  lemma {:induction false} KeysGrow(states: seq<Connection>, inputs: seq<Input>, j: nat, k: nat, id: StreamId)
    requires IsRun(states, inputs) && j <= k < |states| && id in states[j].streams
    ensures id in states[k].streams
    decreases k
  {
    hide IsRun, Step, Sound, Valid, Legal, WellFormed, NewConnection, NextId;
    RunShape(states, inputs);
    if j < k {
      KeysGrow(states, inputs, j, k - 1, id);
      RunStep(states, inputs, k);
      StepOnStreams(states[k - 1], inputs[k - 1]);
    }
  }

  /**
   Over a run only two things have to be checked: the map at the first request, and that 2^32 - 1 is not in use at the
   end. Every later request then finds an odd id in the map, its own predecessor's.
   */
  lemma {:induction false} FirstRequestDecides(states: seq<Connection>, inputs: seq<Input>, k: nat)
    requires IsRun(states, inputs) && k < |states| && LAST_ID !in states[k].streams
    requires forall n :: 0 <= n < k && Issues(states, n) && states[n].hist.issuedIds == [] ==>
             Allocatable(states[n].streams.Keys)
    ensures AlwaysAllocatable(states, 0, k)
  {
    hide IsRun, Increasing, AllInUse;
    if k > 0 {
      var c := states[k - 1];
      if LAST_ID in c.streams {
        KeysGrow(states, inputs, k - 1, k, LAST_ID);
      }
      FirstRequestDecides(states, inputs, k - 1);
      IdsIncrease(states, inputs, k - 1);
      if c.hist.issuedIds != [] {
        OddInUse(c);
      }
    }
  }

  lemma OddInUse(c: Connection)
    requires Increasing(c.hist.issuedIds) && AllInUse(c.hist.issuedIds, c) && c.hist.issuedIds != []
    requires LAST_ID !in c.streams
    ensures Allocatable(c.streams.Keys)
  {
    var id := c.hist.issuedIds[0];
    assert id in c.streams.Keys && id % 2 == 1;
  }

  /** While ids can be allocated, an id once in use leads to the same stream object for ever. */
  lemma {:induction false} EntriesAreKept(states: seq<Connection>, inputs: seq<Input>, j: nat, k: nat, id: StreamId)
    requires IsRun(states, inputs) && j <= k < |states| && AlwaysAllocatable(states, j, k) && id in states[j].streams
    ensures id in states[k].streams && states[k].streams[id] == states[j].streams[id]
    ensures |states[j].hist.issuedIds| <= |states[k].hist.issuedIds|
    ensures id !in states[k].hist.issuedIds[|states[j].hist.issuedIds|..]
    decreases k
  {
    hide IsRun, Step, Sound, Valid, Legal, WellFormed, Allocatable, NewConnection;
    RunShape(states, inputs);
    if j < k {
      var c, c', i := states[k - 1], states[k], inputs[k - 1];
      EntriesAreKept(states, inputs, j, k - 1, id);
      RunStep(states, inputs, k);
      StepOnStreams(c, i);
      EntryIsKept(c, c', id, |states[j].hist.issuedIds|) by {
        if AddsRequest(c, c') {
          AddingIssues(c, c');
          assert Issues(states, k - 1);
        }
      }
    }
  }

  lemma EntryIsKept(c: Connection, c': Connection, id: StreamId, n: nat)
    requires id in c.streams && n <= |c.hist.issuedIds| && id !in c.hist.issuedIds[n..]
    requires KeepsStreams(c, c') || (AddsRequest(c, c') && Allocatable(c.streams.Keys))
    ensures id in c'.streams && c'.streams[id] == c.streams[id]
    ensures n <= |c'.hist.issuedIds| && id !in c'.hist.issuedIds[n..]
  {
    NextIdIsFresh(c.streams.Keys);
    hide NextId, Allocatable;
    if AddsRequest(c, c') {
      assert c'.hist.issuedIds[n..] == c.hist.issuedIds[n..] + [NextId(c.streams.Keys)];
    }
  }

  /** Stream isolation for every stream already in the map: fresh ids leave only promises of its own id to exclude. */
  lemma FreshIdsIsolate(states: seq<Connection>, inputs: seq<Input>, j: nat, k: nat, id: StreamId, h: nat)
    requires IsRun(states, inputs) && j <= k < |states| && id != 0 && RT.Serves(states[j], id, h)
    requires AlwaysAllocatable(states, j, k)
    requires forall n :: j <= n < k ==> !RT.IsPromised(inputs[n], id)
    ensures RT.Serves(states[k], id, h)
    ensures RT.IntakeOf(states[k].store[h]) ==
            RT.TakeAll(RT.IntakeOf(states[j].store[h]), RT.FramesFor(inputs[j..k], id))
  {
    EntriesAreKept(states, inputs, j, k, id);
    RT.StreamIsolation(states, inputs, j, k, id, h);
    hide IsRun, AlwaysAllocatable, RT.IntakeOf, RT.TakeAll;
  }

  // ---------------------------------------------------------------- the condition is needed

  /** A frame for stream 2 and then a request without a body: the request takes id 2 and the first stream is lost. */
  lemma EvenIdIsTakenOver(cmd: HttpCommand) returns (states: seq<Connection>, inputs: seq<Input>)
    requires MethodOf(cmd) == PutOrPost && cmd.body == []
    ensures IsRun(states, inputs) && |states| == 3
    ensures states[2].hist.issuedIds == [2] && 2 in states[1].streams && 2 in states[2].streams
    ensures states[2].streams[2] != states[1].streams[2]
  {
    var c0 := NewConnection();
    var (f, c1) := (Priority(2, 0, 0, false), AddStream(c0, New(2, None, [], INITIAL_WINDOW, INITIAL_WINDOW)));
    hide MethodOf, WellFormed, StepTo, IsRun, NewConnection, AddStream;
    FirstFrame(f, c1);
    var c2 := RequestWithoutBody(c1, cmd);
    RunBegins(Input(Received(f), []), c1);
    RunGoesOn([c0, c1], [Input(Received(f), [])], Input(Http(cmd), []), c2);
    states, inputs := [c0, c1] + [c2], [Input(Received(f), [])] + [Input(Http(cmd), [])];
  }

  lemma FirstFrame(f: Frame, c: Connection)
    requires f == Priority(2, 0, 0, false)
    requires c == AddStream(NewConnection(), New(2, None, [], INITIAL_WINDOW, INITIAL_WINDOW))
    ensures StepTo(NewConnection(), Input(Received(f), []), c) && WellFormed(c)
    ensures c.streams == map[2 := 0] && |c.store| == 1 && c.hist.issuedIds == [] && c.cache == map[]
  {
    var s := c.store[0];
    assert s.hist.path + [] == s.hist.path;
    assert c.store[0 := s] == c.store;
  }

  lemma RequestWithoutBody(c: Connection, cmd: HttpCommand) returns (c': Connection)
    requires MethodOf(cmd) == PutOrPost && cmd.body == []
    requires WellFormed(c) && c.streams == map[2 := 0] && |c.store| == 1 && c.hist.issuedIds == [] && c.cache == map[]
    ensures c'.streams == map[2 := 1] && c'.hist.issuedIds == [2] && StepTo(c, Input(Http(cmd), []), c')
  {
    assert 2 in c.streams.Keys;
    EvenIdsMisleadTheCounter(c.streams.Keys);
    hide NextId, MethodOf, SendFrame;
    var n := NewStream(CountCommand(c, cmd), cmd);
    assert n.hist.issuedIds == [2];
    IdleMaySend(ViewOf(n, 1), cmd);
    c' := Put(n, 1, SendRequest(ViewOf(n, 1), cmd, c.serverFrameSize).value);
  }

  lemma IdleMaySend(v: View, cmd: HttpCommand)
    requires v.s.state == Idle
    ensures SendFrame(v, RequestHeaders(v.s.id, cmd)).Ok?
  {
  }
}
