/** What the connection knows of the server is what the server has sent: settings, credit, data, and the end. */
module InputTheorems {
  import opened Wrappers
  import opened Frames
  import opened StreamSpec
  import opened ConnectionSpec
  import opened RequestLemmas
  import opened Runs
  import opened Actions
  import opened Ledger
  import SL = StreamLemmas

  // ---------------------------------------------------------------- one event

  /** Nothing of what the server has told the connection as a whole is forgotten. */
  predicate SameBooks(c: Connection, c': Connection) {
    && c'.initialSendWindow == c.initialSendWindow && c'.serverFrameSize == c.serverFrameSize
    && c'.initialReceiveWindow == c.initialReceiveWindow && c'.isShutdown == c.isShutdown
    && c'.receiveWindow == c.receiveWindow && c'.hist.received == c.hist.received && c'.hist.credit == c.hist.credit
  }

  /** The value of a setting after the event. */
  function Told(e: Event, setting: Setting, before: u32): u32 {
    if e.Received? && e.frame.Settings? && e.frame.streamId == 0 && setting in e.frame.settings
    then e.frame.settings[setting] else before
  }

  /** The increments of WINDOW_UPDATE frames for the connection as a whole. */
  function CreditIn(e: Event): nat {
    if e.Received? && e.frame.WindowUpdate? && e.frame.streamId == 0 then e.frame.increment else 0
  }

  /** The payload bytes of DATA frames, which count for the connection whatever happens on their streams. */
  function DataIn(e: Event): nat {
    if BringsData(e) then |e.frame.frame.data| else 0
  }

  predicate BringsData(e: Event) {
    e.Received? && e.frame.Data? && e.frame.frame.streamId != 0
  }

  predicate Ends(e: Event) {
    e.Shutdown? || (e.Received? && e.frame.GoAway? && e.frame.streamId == 0)
  }

  predicate Posted(c: Connection, e: Event, c': Connection) {
    && c'.initialSendWindow == Told(e, 4, c.initialSendWindow)
    && c'.serverFrameSize == Told(e, 5, c.serverFrameSize)
    && c'.initialReceiveWindow == c.initialReceiveWindow
    && c'.hist.credit == c.hist.credit + CreditIn(e)
    && c'.hist.received == c.hist.received + DataIn(e)
    && c'.receiveWindow ==
       (if !BringsData(e) then c.receiveWindow
        else if c.receiveWindow - DataIn(e) < 16384 then 65535 else c.receiveWindow - DataIn(e))
    && (c'.isShutdown <==> c.isShutdown || Ends(e))
  }

  /** What an event does to the connection's own fields, its parameters written out. */
  lemma StepPosts(c: Connection, i: Input)
    requires WellFormed(c) && Step(c, i).Ok?
    ensures Posted(c, i.event, Step(c, i).value)
  {
    hide Posted, HandleForStream, HandleForConnection, ExecuteHttp;
    match i.event {
      case Received(f) =>
        if f.GetStreamId() == 0 {
          ConnectionFramePosts(c, f, i.order);
        } else if f.PushPromise? {
          PromiseRouting(c, f);
          PromisePosts(c, f);
          SamePosted(c, i.event, Step(c, i).value);
        } else {
          StreamFramePosts(c, f);
        }
      case Http(cmd) =>
        HttpPosts(c, cmd, i.order);
        SamePosted(c, i.event, Step(c, i).value);
      case PingCommand(id) => SamePosted(c, i.event, ExecutePing(c, id));
      case Monitoring => SamePosted(c, i.event, c);
      case Shutdown => StopPosts(c);
    }
  }

  lemma SamePosted(c: Connection, e: Event, c': Connection)
    requires SameBooks(c, c')
    requires !e.Shutdown? && (e.Received? ==> e.frame.PushPromise?)
    ensures Posted(c, e, c')
  {
  }

  lemma StopPosts(c: Connection)
    ensures Posted(c, Shutdown, c.(isShutdown := true))
  {
  }

  lemma ConnectionFramePosts(c: Connection, f: Frame, order: seq<StreamId>)
    requires f.GetStreamId() == 0 && HandleForConnection(c, f, order).Ok?
    ensures Posted(c, Received(f), HandleForConnection(c, f, order).value)
  {
    hide DrainAll;
    match f {
      case WindowUpdate(_, increment) => DrainAllBooks(AddConnectionCredit(c, increment), order);
      case Settings(_, ack, settings) => SettingsPosts(c, f);
      case _ =>
    }
    hide HandleSettings;
  }

  lemma SettingsPosts(c: Connection, f: Frame)
    requires f.Settings? && f.streamId == 0
    ensures Posted(c, Received(f), HandleSettings(c, f.settings, f.ack))
  {
  }

  lemma {:induction false} DrainAllBooks(c: Connection, order: seq<StreamId>)
    requires DrainAll(c, order).Ok?
    ensures SameBooks(c, DrainAll(c, order).value)
    decreases order
  {
    hide ProcessPendingForConnection;
    if order != [] {
      DrainAllBooks(c, order[..|order| - 1]);
    }
  }

  lemma PromisePosts(c: Connection, f: Frame)
    requires WellFormed(c) && f.PushPromise? && HandlePushPromise(c, f).Ok?
    ensures SameBooks(c, HandlePushPromise(c, f).value)
  {
    hide ReceiveOn, AfterPromise, GetOrCreate, IsGet;
    if HandlePushPromise(c, f) != Ok(c) {
      var id := f.promisedStreamId;
      var c1 := GetOrCreate(c, id);
      CreatingBooks(c, id);
      var c2 := ReceiveOn(c1, c1.streams[id], f).value;
      ReceivingBooks(c1, c1.streams[id], f);
      DecidingBooks(c2, f);
    }
  }

  lemma CreatingBooks(c: Connection, id: StreamId)
    requires WellFormed(c)
    ensures SameBooks(c, GetOrCreate(c, id))
    ensures id in GetOrCreate(c, id).streams && GetOrCreate(c, id).streams[id] < |GetOrCreate(c, id).store|
  {
  }

  lemma DecidingBooks(c: Connection, f: Frame)
    requires f.PushPromise? && f.promisedStreamId in c.streams && c.streams[f.promisedStreamId] < |c.store|
    requires AfterPromise(c, f).Ok?
    ensures SameBooks(c, AfterPromise(c, f).value)
  {
    hide CloseWithError, IsGet;
  }

  lemma StreamFramePosts(c: Connection, f: Frame)
    requires WellFormed(c) && !f.PushPromise? && f.GetStreamId() != 0 && HandleForStream(c, f).Ok?
    ensures Posted(c, Received(f), HandleForStream(c, f).value)
  {
    Routing(c, f);
    var (c1, id) := (BeforeReceive(c, f), f.GetStreamId());
    ArrivalPosts(c, f);
    hide HandleForStream, ReceiveOn, BeforeReceive, Posted;
    if HandleForStream(c, f) != Ok(c1) {
      ReceivingBooks(c1, c1.streams[id], f);
      PostedThenSame(c, Received(f), c1, ReceiveOn(c1, c1.streams[id], f).value);
    }
  }

  lemma ArrivalPosts(c: Connection, f: Frame)
    requires !f.PushPromise? && f.GetStreamId() != 0
    ensures Posted(c, Received(f), BeforeReceive(c, f))
  {
    hide New, ToUint32;
  }

  lemma ReceivingBooks(c: Connection, h: nat, f: Frame)
    requires h < |c.store| && ReceiveOn(c, h, f).Ok?
    ensures SameBooks(c, ReceiveOn(c, h, f).value)
    ensures ReceiveOn(c, h, f).value.streams == c.streams && |ReceiveOn(c, h, f).value.store| == |c.store|
  {
    hide ReceiveFrame;
  }

  lemma PostedThenSame(c: Connection, e: Event, c1: Connection, c': Connection)
    requires Posted(c, e, c1) && SameBooks(c1, c')
    ensures Posted(c, e, c')
  {
  }

  lemma HttpPosts(c: Connection, cmd: HttpCommand, order: seq<StreamId>)
    requires WellFormed(c) && ExecuteHttp(c, cmd, order).Ok?
    ensures SameBooks(c, ExecuteHttp(c, cmd, order).value)
  {
    hide DoRequest, TakeFromCache, MethodOf, FindPromised;
    var c0 := CountCommand(c, cmd);
    if DoRequest(c0, cmd).Ok? { RequestingBooks(c0, cmd); }
    if ByMethod(c0, cmd, order) != DoRequest(c0, cmd) {
      match FindPromised(c0, FindHeader(":path", cmd.headers), order) {
        case None =>
        case Some(id) => TakingBooks(c0, cmd, id);
      }
    }
  }

  lemma RequestingBooks(c: Connection, cmd: HttpCommand)
    requires DoRequest(c, cmd).Ok?
    ensures SameBooks(c, DoRequest(c, cmd).value)
  {
    hide SendRequest, NextId;
  }

  lemma TakingBooks(c: Connection, cmd: HttpCommand, id: StreamId)
    requires id in c.cache && c.cache[id] < |c.store|
    ensures SameBooks(c, TakeFromCache(c, cmd, id))
  {
    hide Associate;
  }

  // ---------------------------------------------------------------- runs

  /** The value that the server has announced last, or the one that holds before it announces any. */
  function Announced(inputs: seq<Input>, setting: Setting, initial: u32): u32 {
    if inputs == [] then initial
    else Told(inputs[|inputs| - 1].event, setting, Announced(inputs[..|inputs| - 1], setting, initial))
  }

  function CreditBy(inputs: seq<Input>): nat {
    if inputs == [] then 0 else CreditBy(inputs[..|inputs| - 1]) + CreditIn(inputs[|inputs| - 1].event)
  }

  function DataBy(inputs: seq<Input>): nat {
    if inputs == [] then 0 else DataBy(inputs[..|inputs| - 1]) + DataIn(inputs[|inputs| - 1].event)
  }

  ghost predicate Ended(inputs: seq<Input>) {
    exists k :: 0 <= k < |inputs| && Ends(inputs[k].event)
  }

  ghost predicate KnowsServer(c: Connection, inputs: seq<Input>) {
    && c.initialSendWindow == Announced(inputs, 4, 65535)
    && c.serverFrameSize == Announced(inputs, 5, 16384)
    && c.initialReceiveWindow == 65535
    && c.hist.credit == CreditBy(inputs)
    && c.hist.received == DataBy(inputs)
    && (c.isShutdown <==> Ended(inputs))
  }

  lemma KnowsMore(c: Connection, i: Input, c': Connection, inputs: seq<Input>)
    requires KnowsServer(c, inputs) && Posted(c, i.event, c')
    ensures KnowsServer(c', inputs + [i])
  {
    var more := inputs + [i];
    assert more[..|inputs|] == inputs && more[|inputs|] == i;
    if Ended(inputs) {
      var k :| 0 <= k < |inputs| && Ends(inputs[k].event);
      assert more[k] == inputs[k];
    }
    if Ended(more) && !Ends(i.event) {
      var k :| 0 <= k < |more| && Ends(more[k].event);
      assert inputs[k] == more[k];
    }
  }

  /**
   In every state the frame size and the window for new streams are those the server announced last (16384 and 65535
   before that), the connection's credit and accounted data are the sums of what came in, and it is shut down exactly if
   there was a GOAWAY or a request to shut down.
   */
  lemma {:induction false} ServerIsBelieved(states: seq<Connection>, inputs: seq<Input>, k: nat)
    requires IsRun(states, inputs) && k < |states|
    ensures |states| == |inputs| + 1 && KnowsServer(states[k], inputs[..k])
  {
    hide IsRun, Step, Sound, Valid, Legal, WellFormed, KnowsServer, NewConnection, Posted;
    RunShape(states, inputs);
    if k == 0 {
      KnowsNothing(inputs[..0]);
    } else {
      ServerIsBelieved(states, inputs, k - 1);
      RunStep(states, inputs, k);
      StepPosts(states[k - 1], inputs[k - 1]);
      KnowsMore(states[k - 1], inputs[k - 1], states[k], inputs[..k - 1]);
      assert inputs[..k] == inputs[..k - 1] + [inputs[k - 1]];
    }
  }

  lemma KnowsNothing(inputs: seq<Input>)
    requires inputs == []
    ensures KnowsServer(NewConnection(), inputs)
  {
  }

  /** Every run starts with a SETTINGS frame without settings, the windows at 65535, and nothing else. */
  lemma EveryRunStartsAlike(states: seq<Connection>, inputs: seq<Input>, k: nat)
    requires IsRun(states, inputs) && k < |states|
    ensures var c := states[0];
            && c.writer == Writer(65535, [Settings(0, false, map[])], [])
            && c.store == [] && c.streams == map[] && c.cache == map[]
            && c.nextPingId == 0 && c.pendingPings == map[] && !c.isShutdown
            && c.serverFrameSize == 16384 && c.initialSendWindow == 65535
            && c.initialReceiveWindow == 65535 && c.receiveWindow == 65535
    ensures states[k].writer.log != [] && states[k].writer.log[0] == Settings(0, false, map[])
  {
    RunGrows(states, inputs, 0, k);
    hide StepTo, StreamGrows;
  }

  // ---------------------------------------------------------------- the windows of new streams

  /** Streams that came into being since `c` start with the windows that `c` has for new streams. */
  ghost predicate NewAlike(c: Connection, c': Connection) {
    && c'.initialSendWindow == c.initialSendWindow && c'.initialReceiveWindow == c.initialReceiveWindow
    && |c.store| <= |c'.store|
    && forall h :: |c.store| <= h < |c'.store| ==>
         c'.store[h].initialSendWindow == c.initialSendWindow
         && c'.store[h].initialReceiveWindow == c.initialReceiveWindow
  }

  lemma GrowsAlike(c: Connection, c1: Connection, c': Connection)
    requires NewAlike(c, c1) && Grows(c1, c') && |c'.store| == |c1.store|
    requires c'.initialSendWindow == c1.initialSendWindow && c'.initialReceiveWindow == c1.initialReceiveWindow
    ensures NewAlike(c, c')
  {
    forall h | |c.store| <= h < |c'.store|
      ensures c'.store[h].initialSendWindow == c.initialSendWindow
      ensures c'.store[h].initialReceiveWindow == c.initialReceiveWindow
    {
      assert StreamGrows(c1.store[h], c'.store[h]);
    }
    hide StreamGrows;
  }

  lemma AddAlike(c: Connection, c1: Connection, c': Connection, s: Stream)
    requires NewAlike(c, c1) && c'.store == c1.store + [s]
    requires s.initialSendWindow == c1.initialSendWindow && s.initialReceiveWindow == c1.initialReceiveWindow
    requires c'.initialSendWindow == c1.initialSendWindow && c'.initialReceiveWindow == c1.initialReceiveWindow
    ensures NewAlike(c, c')
  {
  }

  lemma RequestWindows(c: Connection, cmd: HttpCommand) returns (s: Stream)
    requires DoRequest(c, cmd).Ok?
    ensures DoRequest(c, cmd).value.store == c.store + [s]
    ensures s.initialSendWindow == c.initialSendWindow && s.initialReceiveWindow == c.initialReceiveWindow
  {
    hide DoRequest, NextId, SendRequest, ReadyToSend, SL.Evolves, Sized, Cuttable, Uploaded;
    var v, v' := RequestUnfolds(c, cmd);
    SendRequestKeeps(v, cmd, c.serverFrameSize);
    EvolvesWindows(v, v');
    s := v'.s;
  }

  lemma EvolvesWindows(v: View, v': View)
    requires SL.Evolves(v, v')
    ensures v'.s.initialSendWindow == v.s.initialSendWindow && v'.s.initialReceiveWindow == v.s.initialReceiveWindow
  {
    hide SL.Extends;
  }

  lemma ActAlike(c: Connection, c1: Connection, a: Action)
    requires Sound(c1) && NewAlike(c, c1) && Act(c1, a).Ok? && !a.Configures?
    ensures NewAlike(c, Act(c1, a).value)
  {
    hide Sound, NewAlike, ReceiveOn, CloseWithError, DrainOne, DoRequest, TakeFromCache, Grows, StreamGrows;
    ActKeeps(c1, a);
    var c' := Act(c1, a).value;
    match a {
      case Requests(cmd) =>
        RequestingBooks(c1, cmd);
        var s := RequestWindows(c1, cmd);
        AddAlike(c, c1, c', s);
      case Creates(id) =>
        if id !in c1.streams {
          AddAlike(c, c1, c', New(id, None, [], c1.initialSendWindow, c1.initialReceiveWindow));
        }
      case _ =>
        OtherAlike(c1, a);
        GrowsAlike(c, c1, c');
    }
  }

  lemma OtherAlike(c: Connection, a: Action)
    requires Act(c, a).Ok? && !a.Requests? && !a.Creates? && !a.Configures?
    ensures var c' := Act(c, a).value;
            && |c'.store| == |c.store|
            && c'.initialSendWindow == c.initialSendWindow && c'.initialReceiveWindow == c.initialReceiveWindow
  {
    hide ReceiveFrame, CloseWithError, ProcessPendingForConnection, Associate;
  }

  lemma StepAlike(c: Connection, i: Input)
    requires Sound(c) && WellFormed(c) && Step(c, i).Ok?
    ensures |c.store| <= |Step(c, i).value.store|
    ensures forall h :: |c.store| <= h < |Step(c, i).value.store| ==>
              var s := Step(c, i).value.store[h];
              s.initialSendWindow == c.initialSendWindow && s.initialReceiveWindow == c.initialReceiveWindow
  {
    hide Step, Sound, Act, NewAlike, Belongs;
    if i.event.Received? && i.event.frame.Settings? && i.event.frame.streamId == 0 {
      SettingsCreateNothing(c, i);
    } else {
      forall c1, a | Sound(c1) && NewAlike(c, c1) && Belongs(i.event, a) && Act(c1, a).Ok?
        ensures NewAlike(c, Act(c1, a).value)
      {
        if a.Configures? {
          OnlySettingsConfigure(i.event, a);
        }
        ActAlike(c, c1, a);
      }
      AlikeAtFirst(c);
      StepKeepsInvariant(c, i, c1 => NewAlike(c, c1));
      AlikeIs(c, Step(c, i).value);
    }
  }

  lemma SettingsCreateNothing(c: Connection, i: Input)
    requires WellFormed(c) && i.event.Received? && i.event.frame.Settings? && i.event.frame.streamId == 0
    ensures Step(c, i).Ok? && Step(c, i).value.store == c.store
  {
    hide HandleForStream, ExecuteHttp;
  }

  lemma OnlySettingsConfigure(e: Event, a: Action)
    requires Belongs(e, a) && a.Configures?
    ensures e.Received? && e.frame.Settings? && e.frame.streamId == 0
  {
  }

  lemma AlikeAtFirst(c: Connection)
    ensures NewAlike(c, c)
  {
  }

  lemma AlikeIs(c: Connection, c': Connection)
    requires NewAlike(c, c')
    ensures |c.store| <= |c'.store|
    ensures forall h :: |c.store| <= h < |c'.store| ==>
              c'.store[h].initialSendWindow == c.initialSendWindow
              && c'.store[h].initialReceiveWindow == c.initialReceiveWindow
  {
  }

  /** A stream starts with the window that the server had announced last when the stream came into being. */
  lemma FirstWindows(states: seq<Connection>, inputs: seq<Input>, j: nat, k: nat, h: nat)
    requires IsRun(states, inputs) && j < k < |states| && |states[j].store| <= h < |states[j + 1].store|
    ensures |states| == |inputs| + 1 && h < |states[k].store|
    ensures var s := states[k].store[h];
            s.initialSendWindow == Announced(inputs[..j], 4, 65535) && s.initialReceiveWindow == 65535
  {
    hide IsRun, Step, Sound, Valid, Legal, WellFormed, Announced;
    RunStep(states, inputs, j + 1);
    ServerIsBelieved(states, inputs, j);
    StepAlike(states[j], inputs[j]);
    RunGrows(states, inputs, j + 1, k);
    assert StreamGrows(states[j + 1].store[h], states[k].store[h]);
  }
}
