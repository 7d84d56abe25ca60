/** What each action does to the maps and counters of the connection, and induction over the actions of a step. */
module Ledger {
  import opened Frames
  import opened Wrappers
  import opened StreamState
  import opened StreamSpec
  import opened ConnectionSpec
  import opened RequestLemmas
  import opened Runs
  import opened Actions

  predicate WithinStreams(a: Action) {
    a.Delivers? || a.Refuses? || a.Drains? || a.Fails?
  }

  lemma WithinStreamsIs(c: Connection, a: Action)
    requires WithinStreams(a) && Act(c, a).Ok?
    ensures var c' := Act(c, a).value; c' == c.(store := c'.store, writer := c'.writer)
  {
    hide ReceiveFrame, CloseWithError, ProcessPendingForConnection;
  }

  predicate Plain(a: Action) {
    || a.Fails? || a.Counts? || a.Caches? || a.Credits? || a.Accounts? || a.Configures? || a.Pings? || a.Pongs?
    || a.Stops?
  }

  /** Actions that touch no stream object. */
  lemma PlainKeepsStore(c: Connection, a: Action)
    requires Plain(a)
    ensures Act(c, a).Ok? && Act(c, a).value.store == c.store && Act(c, a).value.streams == c.streams
  {
    hide ReceiveOn, CloseWithError, DrainOne, DoRequest, TakeFromCache, GetOrCreate, ToUint32;
  }

  lemma RequestsIs(c: Connection, cmd: HttpCommand)
    requires DoRequest(c, cmd).Ok?
    ensures var c', c1 := DoRequest(c, cmd).value, NewStream(c, cmd); c' == c1.(store := c'.store, writer := c'.writer)
  {
    hide SendRequest, NextId;
  }

  /** A request, as what its new stream sends. */
  lemma RequestUnfolds(c: Connection, cmd: HttpCommand) returns (v: View, v': View)
    requires DoRequest(c, cmd).Ok?
    ensures v == View(New(NextId(c.streams.Keys), Some(cmd), cmd.body, c.initialSendWindow, c.initialReceiveWindow),
                      c.writer)
    ensures ReadyToSend(v) && v.s.state == Idle && v.s.hist.submitted == [] && v.s.hist.upload == cmd.body
    ensures SendRequest(v, cmd, c.serverFrameSize) == Ok(v')
    ensures DoRequest(c, cmd).value.store == c.store + [v'.s] && DoRequest(c, cmd).value.writer == v'.w
  {
    var id := NextId(c.streams.Keys);
    v := View(New(id, Some(cmd), cmd.body, c.initialSendWindow, c.initialReceiveWindow), c.writer);
    NewStreamValid(id, Some(cmd), cmd.body, c.initialSendWindow, c.initialReceiveWindow, c.writer);
    hide NextId, SendRequest, ReadyToSend;
    assert ViewOf(NewStream(c, cmd), |c.store|) == v;
    v' := SendRequest(v, cmd, c.serverFrameSize).value;
  }

  /** The stream map only gains entries, and only `Requests` and `Creates` add one. */
  lemma ActOnStreams(c: Connection, a: Action)
    requires Sound(c) && Act(c, a).Ok?
    ensures var c' := Act(c, a).value;
            match a
            case Requests(_) =>
              && c'.streams == c.streams[NextId(c.streams.Keys) := |c.store|]
              && c'.hist.issuedIds == c.hist.issuedIds + [NextId(c.streams.Keys)]
            case Creates(id) =>
              && c'.streams == (if id in c.streams then c.streams else c.streams[id := |c.store|])
              && c'.hist.issuedIds == c.hist.issuedIds
            case _ => c'.streams == c.streams && c'.hist.issuedIds == c.hist.issuedIds
  {
    hide ReceiveOn, CloseWithError, DrainOne, DoRequest, TakeFromCache, NextId, Sound;
    if WithinStreams(a) {
      WithinStreamsIs(c, a);
      hide Act;
    } else if a.Requests? {
      RequestsIs(c, a.command);
    } else if a.Takes? && a.id in c.cache && c.cache[a.id] < |c.store| {
      TakesIs(c, a.command, a.id);
    }
  }

  predicate SameCache(c: Connection, c': Connection) {
    c'.cache == c.cache && c'.hist.cached == c.hist.cached && c'.hist.consumed == c.hist.consumed
  }

  predicate Cached(c: Connection, id: StreamId, c': Connection)
    requires id in c.streams
  {
    && c'.cache == c.cache[id := c.streams[id]]
    && c'.hist.cached == c.hist.cached + multiset{id} && c'.hist.consumed == c.hist.consumed
  }

  predicate Consumed(c: Connection, id: StreamId, c': Connection) {
    && id in c.cache && c'.cache == c.cache - {id}
    && c'.hist.cached == c.hist.cached && c'.hist.consumed == c.hist.consumed + multiset{id}
  }

  /** The push cache gains an entry by a promise and loses one by a GET. */
  lemma ActOnCache(c: Connection, a: Action)
    requires Sound(c) && Act(c, a).Ok?
    ensures var c' := Act(c, a).value;
            if a.Caches? then SameCache(c, c') || (a.id in c.streams && Cached(c, a.id, c'))
            else if a.Takes? then SameCache(c, c') || Consumed(c, a.id, c')
            else SameCache(c, c')
  {
    hide ReceiveOn, CloseWithError, DrainOne, DoRequest, TakeFromCache, NextId, Sound, Cached, Consumed;
    if WithinStreams(a) {
      WithinStreamsIs(c, a);
      hide Act;
    } else if a.Requests? {
      RequestsIs(c, a.command);
    } else if a.Caches? {
      CachesIs(c, a.id);
      hide Act;
    } else if a.Takes? && a.id in c.cache && c.cache[a.id] < |c.store| {
      TakesIs(c, a.command, a.id);
    }
  }

  lemma CachesIs(c: Connection, id: StreamId)
    ensures var c' := Act(c, Caches(id)).value; SameCache(c, c') || (id in c.streams && Cached(c, id, c'))
  {
  }

  lemma TakesIs(c: Connection, cmd: HttpCommand, id: StreamId)
    requires id in c.cache && c.cache[id] < |c.store|
    ensures Consumed(c, id, TakeFromCache(c, cmd, id))
    ensures TakeFromCache(c, cmd, id).streams == c.streams
    ensures TakeFromCache(c, cmd, id).hist.issuedIds == c.hist.issuedIds
    ensures SamePings(c, TakeFromCache(c, cmd, id))
  {
    hide Associate;
  }

  predicate SamePings(c: Connection, c': Connection) {
    && c'.nextPingId == c.nextPingId && c'.pendingPings == c.pendingPings
    && c'.hist.pings == c.hist.pings && c'.hist.pongs == c.hist.pongs
  }

  lemma ActOnPings(c: Connection, a: Action)
    requires Sound(c) && Act(c, a).Ok?
    ensures !a.Pings? && !a.Pongs? ==> SamePings(c, Act(c, a).value)
  {
    hide ReceiveOn, CloseWithError, DrainOne, DoRequest, TakeFromCache, NextId, Sound;
    if WithinStreams(a) {
      WithinStreamsIs(c, a);
      hide Act;
    } else if a.Requests? {
      RequestsIs(c, a.command);
    } else if a.Takes? && a.id in c.cache && c.cache[a.id] < |c.store| {
      TakesIs(c, a.command, a.id);
    }
  }

  /** What every action of an event keeps, the step keeps. */
  lemma {:induction false} ActsKeep(c: Connection, e: Event, acts: seq<Action>, inv: Connection -> bool)
    requires Sound(c) && inv(c) && AllBelong(e, acts) && ActAll(c, acts).Ok?
    requires forall c1, a :: Sound(c1) && inv(c1) && Belongs(e, a) && Act(c1, a).Ok? ==> inv(Act(c1, a).value)
    ensures inv(ActAll(c, acts).value) && Sound(ActAll(c, acts).value)
    decreases acts
  {
    hide Act, Sound;
    if acts != [] {
      var before, last := acts[..|acts| - 1], acts[|acts| - 1];
      ActsKeep(c, e, before, inv);
      assert Belongs(e, last);
      ActKeeps(ActAll(c, before).value, last);
      assert Act(ActAll(c, before).value, last).Ok?;
    }
  }

  lemma StepKeepsInvariant(c: Connection, i: Input, inv: Connection -> bool)
    requires Sound(c) && inv(c) && WellFormed(c) && Step(c, i).Ok?
    requires forall c1, a :: Sound(c1) && inv(c1) && Belongs(i.event, a) && Act(c1, a).Ok? ==> inv(Act(c1, a).value)
    ensures inv(Step(c, i).value)
  {
    hide Step, ActAll, Sound, Act, Belongs;
    var acts := StepActs(c, i);
    ActsKeep(c, i.event, acts, inv);
  }
}
