/** When, and how often, an HTTP command is completed. */
module CompletionTheorems {
  import opened Wrappers
  import opened Frames
  import opened StreamState
  import opened StreamSpec
  import opened ConnectionSpec
  import opened RequestLemmas
  import opened Runs
  import opened Actions
  import SL = StreamLemmas

  /** How often command `id` has been completed. */
  function Count(completions: seq<Completion>, id: nat): nat {
    if completions == [] then 0
    else Count(completions[..|completions| - 1], id) + (if completions[|completions| - 1].command == id then 1 else 0)
  }

  lemma CountAppend(completions: seq<Completion>, last: Completion, id: nat)
    ensures Count(completions + [last], id) == Count(completions, id) + (if last.command == id then 1 else 0)
  {
    assert (completions + [last])[..|completions|] == completions;
  }

  lemma {:induction false} CountAtLeast(completions: seq<Completion>, id: nat, m: nat, n: nat)
    requires m < |completions| && completions[m].command == id
    requires n < |completions| && completions[n].command == id
    ensures Count(completions, id) >= if m == n then 1 else 2
    decreases completions
  {
    var last := |completions| - 1;
    var init := completions[..last];
    if m == last && n < last {
      CountAtLeast(init, id, n, n);
    } else if m < last && n == last {
      CountAtLeast(init, id, m, m);
    } else if m < last {
      CountAtLeast(init, id, m, n);
    }
  }

  /**
   A stream with a command is under way, and the command is completed when the stream is closed, but for a silent close.
   */
  ghost predicate Served(s: Stream, completions: seq<Completion>) {
    && (s.command.Some? ==>
          && s.state != Idle
          && Count(completions, s.command.value.id) == (if s.state == Closed && !s.hist.silentClose then 1 else 0))
    && (s.command.None? ==> s.hist.submitted == [] && !s.hist.silentClose)
  }

  ghost predicate Orderly(c: Connection) {
    && (forall h :: 0 <= h < |c.store| ==> Served(c.store[h], c.writer.completions))
    && (forall g, h :: 0 <= g < h < |c.store| && c.store[g].command.Some? && c.store[h].command.Some? ==>
          c.store[g].command.value.id != c.store[h].command.value.id)
    && (forall id :: Count(c.writer.completions, id) <= 1)
    && (forall id :: Count(c.writer.completions, id) > 0 ==> id in c.hist.commands)
    && (forall h :: 0 <= h < |c.store| && c.store[h].command.Some? ==> c.store[h].command.value.id in c.hist.commands)
    && (forall id <- c.cache :: c.cache[id] < |c.store| && c.store[c.cache[id]].state != Idle)
  }

  /** Command `id` has neither been bound to a stream nor completed. */
  ghost predicate Unused(c: Connection, id: nat) {
    && Count(c.writer.completions, id) == 0
    && forall h :: 0 <= h < |c.store| && c.store[h].command.Some? ==> c.store[h].command.value.id != id
  }

  /** Closed streams stay closed and streams under way never become idle again. */
  lemma NeverBack(s: Stream, s': Stream)
    requires SL.Valid(s) && SL.Valid(s') && SL.Extends(s.hist, s'.hist)
    ensures s.state == Closed ==> s'.state == Closed
    ensures s.state != Idle ==> s'.state != Idle
  {
    var (p, q) := (s.hist.path, s'.hist.path);
    assert q[|p| - 1] == p[|p| - 1];
    WalkRises(q, |p| - 1, |q| - 1);
  }

  /** One stream moves on; its command, if any, is completed when it closes. */
  lemma StreamServed(c: Connection, h: nat, v: View)
    requires Sound(c) && Orderly(c) && h < |c.store|
    requires SL.Valid(v.s) && SL.Evolves(ViewOf(c, h), v) && SL.SubmitsNothing(ViewOf(c, h), v)
    requires SL.CompletesOnClose(ViewOf(c, h), v)
    ensures Orderly(Put(c, h, v))
  {
    var s := c.store[h];
    assert StreamSound(s);
    NeverBack(s, v.s);
    assert v.s.command == s.command && v.s.hist.silentClose == s.hist.silentClose;
    hide Sound, SL.Valid, SL.Evolves;
    if SL.Closes(ViewOf(c, h), v) && s.command.Some? {
      CompletedNow(c, h, v);
    } else {
      Unaffected(c, h, v);
    }
  }

  lemma Unaffected(c: Connection, h: nat, v: View)
    requires Orderly(c) && h < |c.store| && v.w.completions == c.writer.completions
    requires v.s.command == c.store[h].command && v.s.hist.submitted == c.store[h].hist.submitted
    requires c.store[h].state != Idle ==> v.s.state != Idle
    requires Served(v.s, c.writer.completions)
    ensures Orderly(Put(c, h, v))
  {
    hide Served;
  }

  lemma CompletedNow(c: Connection, h: nat, v: View)
    requires Orderly(c) && h < |c.store| && c.store[h].command.Some? && c.store[h].state != Closed
    requires v.s.state == Closed
    requires v.s.command == c.store[h].command && v.s.hist.submitted == c.store[h].hist.submitted
    requires !v.s.hist.silentClose
    requires |v.w.completions| > 0 && v.w.completions == c.writer.completions + [v.w.completions[|v.w.completions| - 1]]
    requires v.w.completions[|v.w.completions| - 1].command == c.store[h].command.value.id
    ensures Orderly(Put(c, h, v))
  {
    var c' := Put(c, h, v);
    var last := v.w.completions[|v.w.completions| - 1];
    var id := last.command;
    forall k ensures Count(v.w.completions, k) == Count(c.writer.completions, k) + (if k == id then 1 else 0) {
      CountAppend(c.writer.completions, last, k);
    }
    assert Served(c.store[h], c.writer.completions);
    hide Count;
    forall g | 0 <= g < |c'.store| ensures Served(c'.store[g], c'.writer.completions) {
      if g != h {
        assert Served(c.store[g], c.writer.completions);
      }
    }
  }

  // ---------------------------------------------------------------- actions

  lemma DeliversServed(c: Connection, id: StreamId, f: Frame)
    requires Sound(c) && Orderly(c) && Known(c, id) && ReceiveOn(c, c.streams[id], f).Ok?
    requires f.Headers? ==> f.endHeaders
    ensures Orderly(ReceiveOn(c, c.streams[id], f).value)
  {
    var h := c.streams[id];
    var v := ViewOf(c, h);
    Lookup(c, id);
    assert Served(c.store[h], c.writer.completions);
    assert !SL.CompletesTwice(v.s, f);
    SL.ReceiveFrameKeeps(v, f);
    SL.ReceiveFrameCompletes(v, f);
    hide ReceiveFrame, Sound, Orderly, SL.CompletesOnClose, SL.Valid, SL.Evolves;
    StreamServed(c, h, ReceiveFrame(v, f).value);
  }

  lemma RefusesServed(c: Connection, id: StreamId)
    requires Sound(c) && Orderly(c) && Known(c, id)
    ensures CloseWithError(ViewOf(c, c.streams[id]), REFUSED_STREAM).Ok?
    ensures Orderly(Put(c, c.streams[id], CloseWithError(ViewOf(c, c.streams[id]), REFUSED_STREAM).value))
  {
    var v := ViewOf(c, c.streams[id]);
    Lookup(c, id);
    SL.CloseWithErrorKeeps(v, REFUSED_STREAM);
    hide CloseWithError, Sound, Orderly, SL.CompletesOnClose, SL.Valid, SL.Evolves;
    StreamServed(c, c.streams[id], CloseWithError(v, REFUSED_STREAM).value);
  }

  /** The connection-level drain completes nothing, and notes the streams it closed in silence. */
  lemma DrainsServed(c: Connection, id: StreamId)
    requires Sound(c) && Orderly(c) && DrainOne(c, id).Ok?
    ensures Orderly(DrainOne(c, id).value)
  {
    if Known(c, id) {
      var h := c.streams[id];
      var v := ViewOf(c, h);
      Lookup(c, id);
      assert Served(c.store[h], c.writer.completions);
      hide Sound, Orderly, ProcessPending, SL.Valid, SL.Keeps, Served, Silenced;
      SL.ProcessPendingKeeps(v);
      var v1 := ProcessPending(v).value;
      DrainOneIs(c, id, v1);
      hide DrainOne;
      DrainNeedsCommand(v, v1);
      SilencedServed(v, v1);
      Unaffected(c, h, Silenced(v, v1));
    }
  }

  lemma SilencedServed(v: View, v1: View)
    requires SL.Valid(v.s) && SL.Keeps(v, v1) && Served(v.s, v.w.completions)
    requires v1.s.command == v.s.command && v1.s.hist.submitted == v.s.hist.submitted
    requires v1.s.hist.silentClose == v.s.hist.silentClose && v1.w.completions == v.w.completions
    requires v.s.command.None? ==> v1.s.state == v.s.state
    ensures var v2 := Silenced(v, v1);
            && Served(v2.s, v.w.completions) && v2.w.completions == v.w.completions
            && v2.s.command == v.s.command && v2.s.hist.submitted == v.s.hist.submitted
            && (v.s.state != Idle ==> v2.s.state != Idle)
  {
    NeverBack(v.s, v1.s);
    hide SL.Valid, SL.Evolves, Count;
  }

  lemma DrainNeedsCommand(v: View, v1: View)
    requires SL.Valid(v.s) && SL.Keeps(v, v1) && ProcessPending(v) == Ok(v1)
    requires Served(v.s, v.w.completions)
    ensures v1.s.command == v.s.command && v1.s.hist.submitted == v.s.hist.submitted
    ensures v1.s.hist.silentClose == v.s.hist.silentClose
    ensures v.s.command.None? ==> v1.s.state == v.s.state
  {
    hide Count, SL.Conserves;
    if v.s.command.None? {
      assert v.s.pending == [];
    }
  }

  lemma CreatesServed(c: Connection, s: Stream)
    requires Orderly(c) && s.command.None? && s.hist.submitted == [] && !s.hist.silentClose
    ensures Orderly(AddStream(c, s))
  {
    var c' := AddStream(c, s);
    forall h | 0 <= h < |c'.store| ensures Served(c'.store[h], c'.writer.completions) {
      if h < |c.store| {
        assert Served(c.store[h], c.writer.completions);
      }
    }
    hide Count;
  }

  /** A change that completes nothing and leaves streams, cache and commands alone. */
  lemma SameServed(c: Connection, c': Connection)
    requires Orderly(c) && SameForCommands(c, c')
    ensures Orderly(c')
  {
    hide Served, Count;
  }

  predicate OfCommand(a: Action) {
    a.Requests? || a.Takes? || a.Fails? || a.Counts?
  }

  predicate CutsHeadersShort(e: Event) {
    e.Received? && e.frame.Headers? && !e.frame.endHeaders
  }

  lemma ActServed(c: Connection, a: Action)
    requires Sound(c) && Orderly(c) && Act(c, a).Ok? && !OfCommand(a)
    requires a.Delivers? && a.frame.Headers? ==> a.frame.endHeaders
    ensures Orderly(Act(c, a).value)
  {
    hide Orderly, Sound, ReceiveOn, CloseWithError, DrainOne, New, AccountConnectionData, HandleSettings, ExecutePing,
        HandlePing;
    match a {
      case Delivers(id, f) => if Known(c, id) { DeliversServed(c, id, f); }
      case Refuses(id) => if Known(c, id) { RefusesServed(c, id); }
      case Drains(id) => DrainsServed(c, id);
      case Creates(id) =>
        NewHasNoCommand(id, c.initialSendWindow, c.initialReceiveWindow);
        if id !in c.streams { CreatesServed(c, New(id, None, [], c.initialSendWindow, c.initialReceiveWindow)); }
      case Caches(id) => CachesServed(c, id);
      case Credits(increment) => SameServed(c, AddConnectionCredit(c, increment));
      case Accounts(size) => AccountsSame(c, size); SameServed(c, AccountConnectionData(c, size));
      case Configures(settings, ack) =>
        ConfiguresSame(c, settings, ack);
        SameServed(c, HandleSettings(c, settings, ack));
      case Pings(cmd) => PingsSame(c, cmd); SameServed(c, ExecutePing(c, cmd));
      case Pongs(payload, ack) => PongsSame(c, payload, ack); SameServed(c, HandlePing(c, payload, ack));
      case Stops => SameServed(c, c.(isShutdown := true));
    }
  }

  lemma NewHasNoCommand(id: StreamId, sendWindow: u32, receiveWindow: u32)
    ensures var s := New(id, None, [], sendWindow, receiveWindow);
            s.command.None? && s.hist.submitted == [] && !s.hist.silentClose && s.state == Idle
  {
  }

  ghost predicate SameForCommands(c: Connection, c': Connection) {
    && c'.store == c.store && c'.cache == c.cache
    && c'.writer.completions == c.writer.completions && c'.hist.commands == c.hist.commands
  }

  lemma AccountsSame(c: Connection, size: nat)
    ensures SameForCommands(c, AccountConnectionData(c, size))
  {
  }

  lemma ConfiguresSame(c: Connection, settings: map<Setting, u32>, ack: bool)
    ensures SameForCommands(c, HandleSettings(c, settings, ack))
  {
  }

  lemma PingsSame(c: Connection, id: nat)
    ensures SameForCommands(c, ExecutePing(c, id))
  {
  }

  lemma PongsSame(c: Connection, payload: u64, ack: bool)
    ensures SameForCommands(c, HandlePing(c, payload, ack))
  {
  }

  lemma CachesServed(c: Connection, id: StreamId)
    requires Orderly(c)
    ensures Orderly(Act(c, Caches(id)).value)
  {
    hide Served, Count;
  }

  lemma {:induction false} ActsServed(c: Connection, e: Event, acts: seq<Action>)
    requires Sound(c) && Orderly(c) && AllBelong(e, acts) && !e.Http? && !CutsHeadersShort(e) && ActAll(c, acts).Ok?
    ensures Orderly(ActAll(c, acts).value) && Sound(ActAll(c, acts).value)
    decreases acts
  {
    hide Act, Orderly, Sound;
    if acts != [] {
      var before, last := acts[..|acts| - 1], acts[|acts| - 1];
      ActsServed(c, e, before);
      assert Belongs(e, last);
      ActKeeps(ActAll(c, before).value, last);
      ActServed(ActAll(c, before).value, last);
    }
  }

  // ---------------------------------------------------------------- commands

  /** The next command: counted, but neither bound nor completed. */
  ghost predicate Next(c: Connection, cmd: HttpCommand) {
    Orderly(c) && Unused(c, cmd.id) && cmd.id in c.hist.commands
  }

  lemma CountsServed(c: Connection, cmd: HttpCommand)
    requires Orderly(c) && cmd.id !in c.hist.commands
    ensures Next(CountCommand(c, cmd), cmd)
  {
    var c0 := CountCommand(c, cmd);
    assert forall id <- c.hist.commands :: id in c0.hist.commands;
    assert c0.hist.commands[|c.hist.commands|] == cmd.id;
    hide Served, Count;
  }

  lemma ServedAlike(s: Stream, cs: seq<Completion>, cs': seq<Completion>)
    requires Served(s, cs)
    requires s.command.Some? ==> Count(cs', s.command.value.id) == Count(cs, s.command.value.id)
    ensures Served(s, cs')
  {
  }

  lemma FailsServed(c: Connection, cmd: HttpCommand, result: CommandResult)
    requires Next(c, cmd)
    ensures Orderly(Complete(c, cmd, result))
  {
    var c' := Complete(c, cmd, result);
    forall k
      ensures Count(c'.writer.completions, k) == Count(c.writer.completions, k) + (if k == cmd.id then 1 else 0)
    {
      CountAppend(c.writer.completions, Completion(cmd.id, result), k);
    }
    hide Count, Served;
    forall h | 0 <= h < |c'.store| ensures Served(c'.store[h], c'.writer.completions) {
      ServedAlike(c.store[h], c.writer.completions, c'.writer.completions);
    }
  }

  lemma RequestsServed(c: Connection, cmd: HttpCommand)
    requires Sound(c) && Next(c, cmd) && DoRequest(c, cmd).Ok?
    ensures Orderly(DoRequest(c, cmd).value)
  {
    var c1, h := NewStream(c, cmd), |c.store|;
    NewStreamKeeps(c, cmd);
    var v := ViewOf(c1, h);
    NewStreamValid(NextId(c.streams.Keys), Some(cmd), cmd.body, c.initialSendWindow, c.initialReceiveWindow, c.writer);
    SendRequestKeeps(v, cmd, c.serverFrameSize);
    var v' := SendRequest(v, cmd, c.serverFrameSize).value;
    assert v'.s.command == Some(cmd) && !v'.s.hist.silentClose;
    assert c1.hist.commands == c.hist.commands;
    hide SendRequest, NewStream, Sound, SL.Evolves, NextId, ReadyToSend;
    var c' := Put(c1, h, v');
    assert DoRequest(c, cmd) == Ok(c');
    assert c'.store == c.store + [v'.s];
    AppendServed(c, c', v'.s, cmd);
  }

  lemma AppendServed(c: Connection, c': Connection, s: Stream, cmd: HttpCommand)
    requires Next(c, cmd) && c'.store == c.store + [s] && c'.cache == c.cache
    requires c'.writer.completions == c.writer.completions && c'.hist.commands == c.hist.commands
    requires s.command == Some(cmd) && s.state in {Open, HalfClosedLocal} && !s.hist.silentClose
    ensures Orderly(c')
  {
    hide Count;
    forall h | 0 <= h < |c'.store| ensures Served(c'.store[h], c'.writer.completions) {
      if h < |c.store| {
        assert Served(c.store[h], c.writer.completions);
      }
    }
    hide Served;
  }

  lemma TakesServed(c: Connection, cmd: HttpCommand, id: StreamId)
    requires Sound(c) && Next(c, cmd) && id in c.cache && c.cache[id] < |c.store|
    ensures Orderly(TakeFromCache(c, cmd, id))
  {
    var h := c.cache[id];
    var c0 := Uncached(c, id);
    assert c.store[h].state != Idle;
    hide TakeFromCache, Sound, Orderly, Next, Uncached, Associate, Complete;
    UncachedNext(c, cmd, id);
    TakingIs(c, cmd, id);
    if c.store[h].command.Some? {
      FailsServed(c0, cmd, AlreadyBound);
    } else {
      BindsServed(c0, h, cmd);
    }
  }

  lemma UncachedNext(c: Connection, cmd: HttpCommand, id: StreamId)
    requires Next(c, cmd)
    ensures Next(Uncached(c, id), cmd)
  {
    hide Served, Count;
  }

  function Uncached(c: Connection, id: StreamId): Connection {
    c.(cache := c.cache - {id}, hist := c.hist.(consumed := c.hist.consumed + multiset{id}))
  }

  lemma TakingIs(c: Connection, cmd: HttpCommand, id: StreamId)
    requires id in c.cache && c.cache[id] < |c.store|
    ensures var c0, h := Uncached(c, id), c.cache[id];
            && c0.store == c.store
            && TakeFromCache(c, cmd, id) ==
               if c.store[h].command.Some? then Complete(c0, cmd, AlreadyBound)
               else Put(c0, h, Associate(ViewOf(c0, h), cmd).0)
  {
    var h := c.cache[id];
    assert c.store[h := c.store[h]] == c.store;
  }

  lemma BindsServed(c: Connection, h: nat, cmd: HttpCommand)
    requires Next(c, cmd) && h < |c.store| && c.store[h].command.None? && c.store[h].state != Idle
    ensures Orderly(Put(c, h, Associate(ViewOf(c, h), cmd).0))
  {
    var v := Associate(ViewOf(c, h), cmd).0;
    var s := c.store[h].(command := Some(cmd));
    assert Served(c.store[h], c.writer.completions);
    assert v.s == s;
    hide Orderly, Next, Served, Count;
    if s.state == Closed {
      var last := Completion(cmd.id, v.w.completions[|v.w.completions| - 1].result);
      assert v.w.completions == c.writer.completions + [last];
      hide Associate;
      BindsClosed(c, h, cmd, last, v.w);
    } else {
      assert v.w == c.writer;
      hide Associate;
      BindsOpen(c, h, cmd);
    }
  }

  /** The command waits for its stream. */
  lemma BindsOpen(c: Connection, h: nat, cmd: HttpCommand)
    requires Next(c, cmd) && h < |c.store| && c.store[h].command.None? && c.store[h].state !in {Idle, Closed}
    ensures Orderly(Put(c, h, View(c.store[h].(command := Some(cmd)), c.writer)))
  {
    hide Count;
    var c' := Put(c, h, View(c.store[h].(command := Some(cmd)), c.writer));
    forall g | 0 <= g < |c'.store| ensures Served(c'.store[g], c'.writer.completions) {
      assert Served(c.store[g], c.writer.completions);
    }
    hide Served;
  }

  /** The stream has closed already, and the command is completed at once. */
  lemma BindsClosed(c: Connection, h: nat, cmd: HttpCommand, last: Completion, w: Writer)
    requires Next(c, cmd) && h < |c.store| && c.store[h].command.None? && c.store[h].state == Closed
    requires last.command == cmd.id && w.completions == c.writer.completions + [last]
    ensures Orderly(Put(c, h, View(c.store[h].(command := Some(cmd)), w)))
  {
    var c' := Put(c, h, View(c.store[h].(command := Some(cmd)), w));
    forall k
      ensures Count(w.completions, k) == Count(c.writer.completions, k) + (if k == cmd.id then 1 else 0)
    {
      CountAppend(c.writer.completions, last, k);
    }
    hide Count;
    forall g | 0 <= g < |c'.store| ensures Served(c'.store[g], c'.writer.completions) {
      assert Served(c.store[g], c.writer.completions);
    }
    hide Served;
  }

  lemma HttpServed(c: Connection, cmd: HttpCommand, order: seq<StreamId>)
    requires Sound(c) && Orderly(c) && cmd.id !in c.hist.commands && ExecuteHttp(c, cmd, order).Ok?
    ensures Orderly(ExecuteHttp(c, cmd, order).value)
  {
    var c0 := CountCommand(c, cmd);
    CountsServed(c, cmd);
    CountCommandKeeps(c, cmd);
    hide Next, Orderly, CountCommand, DoRequest, TakeFromCache, Complete;
    SoundIsWellFormed(c0);
    assert Next(c0, cmd);
    ByMethodServed(c0, cmd, order);
    hide ByMethod, Sound;
  }

  lemma ByMethodServed(c: Connection, cmd: HttpCommand, order: seq<StreamId>)
    requires Sound(c) && Next(c, cmd) && ByMethod(c, cmd, order).Ok?
    ensures Orderly(ByMethod(c, cmd, order).value)
  {
    SoundIsWellFormed(c);
    hide Next, Orderly, DoRequest, TakeFromCache, Complete, Sound, FindHeader, FindPromised;
    match MethodOf(cmd) {
      case Get =>
        match FindPromised(c, FindHeader(":path", cmd.headers), order) {
          case None => RequestsServed(c, cmd);
          case Some(id) => TakesServed(c, cmd, id);
        }
      case PutOrPost => RequestsServed(c, cmd);
      case Missing => FailsServed(c, cmd, MethodMissing);
      case Unsupported => FailsServed(c, cmd, MethodNotSupported);
    }
    hide MethodOf;
  }

  // ---------------------------------------------------------------- runs

  /** Every command is executed once, and the headers that arrive are complete. */
  ghost predicate ProperInputs(inputs: seq<Input>) {
    && (forall j, k :: 0 <= j < k < |inputs| && inputs[j].event.Http? && inputs[k].event.Http? ==>
          inputs[j].event.command.id != inputs[k].event.command.id)
    && (forall k :: 0 <= k < |inputs| ==> !CutsHeadersShort(inputs[k].event))
  }

  lemma ActKeepsCommands(c: Connection, a: Action)
    requires Sound(c) && Act(c, a).Ok?
    ensures Act(c, a).value.hist.commands == if a.Counts? then c.hist.commands + [a.command.id] else c.hist.commands
  {
    hide ReceiveFrame, CloseWithError, ProcessPendingForConnection, SendRequest, Associate, NextId, Sound;
  }

  lemma {:induction false} ActsKeepCommands(c: Connection, e: Event, acts: seq<Action>)
    requires Sound(c) && AllBelong(e, acts) && !e.Http? && ActAll(c, acts).Ok?
    ensures ActAll(c, acts).value.hist.commands == c.hist.commands && Sound(ActAll(c, acts).value)
    decreases acts
  {
    hide Act, Sound;
    if acts != [] {
      var before, last := acts[..|acts| - 1], acts[|acts| - 1];
      ActsKeepCommands(c, e, before);
      assert Belongs(e, last);
      ActKeeps(ActAll(c, before).value, last);
      ActKeepsCommands(ActAll(c, before).value, last);
    }
  }

  lemma HttpKeepsCommands(c: Connection, cmd: HttpCommand, order: seq<StreamId>)
    requires Sound(c) && ExecuteHttp(c, cmd, order).Ok?
    ensures ExecuteHttp(c, cmd, order).value.hist.commands == c.hist.commands + [cmd.id]
  {
    var c0 := CountCommand(c, cmd);
    CountCommandKeeps(c, cmd);
    SoundIsWellFormed(c0);
    var a := HttpAct(c0, cmd, order);
    hide Act, ByMethod, Sound;
    ActKeepsCommands(c0, a);
  }

  lemma StepServed(c: Connection, i: Input)
    requires Sound(c) && Orderly(c) && Step(c, i).Ok? && !CutsHeadersShort(i.event)
    requires i.event.Http? ==> i.event.command.id !in c.hist.commands
    ensures Orderly(Step(c, i).value)
    ensures Step(c, i).value.hist.commands ==
            if i.event.Http? then c.hist.commands + [i.event.command.id] else c.hist.commands
  {
    hide Orderly, Sound;
    if i.event.Http? {
      hide ExecuteHttp;
      HttpServed(c, i.event.command, i.order);
      HttpKeepsCommands(c, i.event.command, i.order);
    } else {
      hide Step, ActAll;
      var acts := StepActs(c, i);
      ActsServed(c, i.event, acts);
      ActsKeepCommands(c, i.event, acts);
    }
  }

  /** The commands executed are those of the inputs so far. */
  ghost predicate FromInputs(c: Connection, inputs: seq<Input>, k: nat)
    requires k <= |inputs|
  {
    forall id <- c.hist.commands :: exists j :: 0 <= j < k && inputs[j].event.Http? && inputs[j].event.command.id == id
  }

  lemma InputsGrow(c: Connection, c': Connection, inputs: seq<Input>, k: nat)
    requires 0 < k <= |inputs| && FromInputs(c, inputs, k - 1)
    requires var e := inputs[k - 1].event;
             c'.hist.commands == if e.Http? then c.hist.commands + [e.command.id] else c.hist.commands
    ensures FromInputs(c', inputs, k)
  {
    forall id <- c'.hist.commands
      ensures exists j :: 0 <= j < k && inputs[j].event.Http? && inputs[j].event.command.id == id
    {
      if id !in c.hist.commands {
        assert inputs[k - 1].event.Http? && inputs[k - 1].event.command.id == id;
      }
    }
  }

  lemma {:induction false} RunServed(states: seq<Connection>, inputs: seq<Input>, k: nat)
    requires IsRun(states, inputs) && ProperInputs(inputs) && k < |states|
    ensures Orderly(states[k]) && FromInputs(states[k], inputs, k)
  {
    hide IsRun, Step, Sound, Valid, Legal, WellFormed, Orderly, NewConnection;
    RunShape(states, inputs);
    if k == 0 {
      NothingExecuted(inputs);
    } else {
      var i := inputs[k - 1];
      RunServed(states, inputs, k - 1);
      RunStep(states, inputs, k);
      assert i.event.Http? ==> i.event.command.id !in states[k - 1].hist.commands;
      StepServed(states[k - 1], i);
      InputsGrow(states[k - 1], states[k], inputs, k);
    }
  }

  lemma NothingExecuted(inputs: seq<Input>)
    ensures Orderly(NewConnection()) && FromInputs(NewConnection(), inputs, 0)
  {
  }

  /**
   Completion: where commands are executed once each and received HEADERS are complete, a command bound to a stream has
   been completed exactly once if the stream is closed, unless the connection-level drain closed it, and never
   otherwise.
   */
  lemma CompletedExactlyOnClose(states: seq<Connection>, inputs: seq<Input>, k: nat, h: nat)
    requires IsRun(states, inputs) && ProperInputs(inputs) && k < |states| && h < |states[k].store|
    requires states[k].store[h].command.Some?
    ensures var c, s := states[k], states[k].store[h];
            Count(c.writer.completions, s.command.value.id) == if s.state == Closed && !s.hist.silentClose then 1 else 0
  {
    RunServed(states, inputs, k);
    assert Served(states[k].store[h], states[k].writer.completions);
    hide IsRun;
  }

  /** No command is ever completed twice, bound to a stream or not. */
  lemma CompletedAtMostOnce(states: seq<Connection>, inputs: seq<Input>, k: nat, id: nat)
    requires IsRun(states, inputs) && ProperInputs(inputs) && k < |states|
    ensures Count(states[k].writer.completions, id) <= 1
  {
    RunServed(states, inputs, k);
    hide IsRun;
  }

  /** The command of a stream that the connection-level drain closed is never completed, however the run goes on. */
  lemma SilentForEver(states: seq<Connection>, inputs: seq<Input>, j: nat, k: nat, h: nat)
    requires IsRun(states, inputs) && ProperInputs(inputs) && j <= k < |states| && h < |states[j].store|
    requires states[j].store[h].command.Some? && states[j].store[h].hist.silentClose
    ensures h < |states[k].store| && states[k].store[h].hist.silentClose
    ensures Count(states[k].writer.completions, states[j].store[h].command.value.id) == 0
  {
    RunServed(states, inputs, k);
    RunGrows(states, inputs, j, k);
    assert StreamGrows(states[j].store[h], states[k].store[h]);
    assert Served(states[k].store[h], states[k].writer.completions);
    hide IsRun, Count;
  }

  /** A command is bound to at most one stream, and a stream keeps the command it got first. */
  lemma BoundOnce(states: seq<Connection>, inputs: seq<Input>, j: nat, k: nat, g: nat, h: nat)
    requires IsRun(states, inputs) && ProperInputs(inputs) && j <= k < |states|
    requires h < |states[j].store| && states[j].store[h].command.Some?
    ensures h < |states[k].store| && states[k].store[h].command == states[j].store[h].command
    ensures g < |states[k].store| && g != h && states[k].store[g].command.Some? ==>
              states[k].store[g].command.value.id != states[j].store[h].command.value.id
  {
    RunServed(states, inputs, k);
    RunGrows(states, inputs, j, k);
    assert StreamGrows(states[j].store[h], states[k].store[h]);
    hide IsRun, Served, Count;
  }
}
