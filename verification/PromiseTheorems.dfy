/** Whose request a cached promise answers: where the headers of a cache entry come from, and who gets it. */
module PromiseTheorems {
  import opened Frames
  import opened StreamState
  import opened StreamSpec
  import opened ConnectionSpec
  import opened Runs
  import opened Actions
  import opened ReplyTheorems
  import opened CommandTheorems
  import opened EventTheorems
  import CT = CompletionTheorems
  import HL = HonestLemmas
  import SL = StreamLemmas

  // ---------------------------------------------------------------- request headers stay

  /** A stream under way stays under way, with the request headers it has. */
  ghost predicate HeadersStay(c: Connection, c': Connection) {
    && |c.store| <= |c'.store|
    && forall h :: 0 <= h < |c.store| && c.store[h].state != Idle ==>
         c'.store[h].state != Idle && c'.store[h].requestHeaders == c.store[h].requestHeaders
  }

  /** A stream that is still idle has no request headers. */
  ghost predicate IdleHasNone(c: Connection) {
    forall h :: 0 <= h < |c.store| && c.store[h].state == Idle ==> c.store[h].requestHeaders == []
  }

  /** Nothing becomes idle again. */
  ghost predicate NoneBack(c: Connection, c': Connection) {
    && |c.store| <= |c'.store|
    && forall h :: 0 <= h < |c.store| && c.store[h].state != Idle ==> c'.store[h].state != Idle
  }

  lemma GrowsNoneBack(c: Connection, c': Connection)
    requires Sound(c) && Sound(c') && Grows(c, c')
    ensures NoneBack(c, c')
  {
    forall h | 0 <= h < |c.store| && c.store[h].state != Idle ensures c'.store[h].state != Idle {
      assert StreamSound(c.store[h]) && StreamSound(c'.store[h]) && StreamGrows(c.store[h], c'.store[h]);
      CT.NeverBack(c.store[h], c'.store[h]);
    }
    hide StreamGrows, StreamSound, SL.Valid, TotalWritten;
  }

  ghost predicate Keeps(c: Connection, c': Connection) {
    HeadersStay(c, c') && IdleHasNone(c')
  }

  lemma OneKeeps(c: Connection, id: StreamId, c': Connection)
    requires Known(c', id) && OnlyStream(c, id, c'.store[c'.streams[id]], c') && NoneBack(c, c') && IdleHasNone(c)
    requires var (s, s') := (StreamFor(c, id), c'.store[c'.streams[id]]);
             && (s.state != Idle ==> s'.requestHeaders == s.requestHeaders)
             && (s'.state == Idle ==> s'.requestHeaders == s.requestHeaders)
    ensures Keeps(c, c')
  {
  }

  lemma IdleStreamHasNone(c: Connection, id: StreamId)
    requires IdleHasNone(c) && StreamFor(c, id).state == Idle
    ensures StreamFor(c, id).requestHeaders == []
  {
  }

  lemma FrameKeeps(c: Connection, f: Frame, c': Connection)
    requires !f.PushPromise? && Effect(c, f, c') && NoneBack(c, c') && IdleHasNone(c)
    ensures Keeps(c, c')
  {
    hide Reply, Results, Verdicts, ConnectionReply, OnlyStream, NoneBack, IdleHasNone;
    var id := f.GetStreamId();
    if Ignored(c, f) {
      IgnoredIsOne(c, id, c');
    }
    OneKeeps(c, id, c');
  }

  lemma IgnoredIsOne(c: Connection, id: StreamId, c': Connection)
    requires OnlyStream(c, id, StreamFor(c, id), c')
    ensures Known(c', id) && c'.store[c'.streams[id]] == StreamFor(c, id)
  {
  }

  /** The request headers that the stream has after the promise. */
  function HeadersFrom(p: Stream, f: Frame): seq<HeaderField>
    requires f.PushPromise?
  {
    if p.state == Idle then if f.endHeaders then f.headers else [] else p.requestHeaders
  }

  lemma PromiseKeeps(c: Connection, f: Frame, c': Connection)
    requires f.PushPromise? && PromiseEffect(c, f, c') && NoneBack(c, c') && IdleHasNone(c)
    requires StreamFor(c, f.promisedStreamId).state != ReservedLocal
    ensures Keeps(c, c')
    ensures Attended(c, f) ==>
              var s' := c'.store[c'.streams[f.promisedStreamId]];
              s'.state != Idle && s'.requestHeaders == HeadersFrom(StreamFor(c, f.promisedStreamId), f)
  {
    hide Reply, Results, Verdicts, OnlyStream, NoneBack, IdleHasNone, FindHeader;
    if Attended(c, f) {
      var p := StreamFor(c, f.promisedStreamId);
      if p.state == Idle {
        IdleStreamHasNone(c, f.promisedStreamId);
        assert [] + f.headers == f.headers;
      }
      OneKeeps(c, f.promisedStreamId, c');
    } else {
      NothingLost(c);
    }
  }

  lemma NothingLost(c: Connection)
    requires IdleHasNone(c)
    ensures Keeps(c, c)
  {
  }

  lemma CommandKeeps(c: Connection, cmd: HttpCommand, c': Connection)
    requires WellFormed(c) && CommandEffect(c, cmd, c') && IdleHasNone(c)
    ensures Keeps(c, c')
  {
    hide FindHeader, SL.AllFor;
    if Sent(c, cmd, c') {
      assert forall h :: 0 <= h < |c.store| ==> c'.store[h] == c'.store[..|c.store|][h];
    }
  }

  lemma EventKeeps(c: Connection, e: Event, c': Connection)
    requires WellFormed(c) && EventEffect(c, e, c') && NoneBack(c, c') && IdleHasNone(c)
    requires Sound(c) && NoneGivenUp(c)
    ensures Keeps(c, c')
  {
    hide CommandEffect, PromiseEffect, Effect, OnlyData, Sound, NoneGivenUp;
    if e.Http? {
      CommandKeeps(c, e.command, c');
    } else if !DrainsAll(e) && !OfConnection(e) {
      if e.frame.PushPromise? {
        NeverReservedLocal(c, e.frame.promisedStreamId);
        PromiseKeeps(c, e.frame, c');
      } else {
        FrameKeeps(c, e.frame, c');
      }
    }
  }

  lemma NeverReservedLocal(c: Connection, id: StreamId)
    requires Sound(c) && NoneGivenUp(c)
    ensures StreamFor(c, id).state != ReservedLocal
  {
    StreamForIsValid(c, id);
    SL.NotReservedLocal(StreamFor(c, id));
    hide Sound, NoneGivenUp;
  }

  // ---------------------------------------------------------------- the push cache over a run

  /** Event `n` was the promise of a GET on stream `id`, and `headers` are those that the stream had afterwards. */
  ghost predicate PromisedBy(states: seq<Connection>, inputs: seq<Input>, n: nat, id: StreamId,
      headers: seq<HeaderField>)
    requires n < |states| == |inputs| + 1
  {
    && n < |inputs| && inputs[n].event.Received?
    && var f := inputs[n].event.frame;
       && PromisesGet(f) && f.promisedStreamId == id && Attended(states[n], f)
       && headers == HeadersFrom(StreamFor(states[n], id), f)
  }

  ghost predicate EntryPromised(states: seq<Connection>, inputs: seq<Input>, k: nat, id: StreamId)
    requires k < |states| == |inputs| + 1 && id in states[k].cache
  {
    && states[k].cache[id] < |states[k].store|
    && var s := states[k].store[states[k].cache[id]];
       && s.state != Idle && exists n :: 0 <= n < k && PromisedBy(states, inputs, n, id, s.requestHeaders)
  }

  ghost predicate CacheIsPromised(states: seq<Connection>, inputs: seq<Input>, k: nat)
    requires k < |states| == |inputs| + 1
  {
    IdleHasNone(states[k]) && forall id <- states[k].cache :: EntryPromised(states, inputs, k, id)
  }

  /** What an event does to the push cache. */
  lemma EventOnCache(c: Connection, e: Event, c': Connection)
    requires WellFormed(c) && EventEffect(c, e, c')
    ensures forall id <- c'.cache ::
              || (id in c.cache && c'.cache[id] == c.cache[id])
              || (e.Received? && e.frame.PushPromise? && e.frame.streamId != 0
                  && e.frame.promisedStreamId == id && PromisesGet(e.frame)
                  && Attended(c, e.frame) && Known(c', id) && c'.cache[id] == c'.streams[id])
  {
    hide CommandEffect, OnlyData, Attended, PromisesGet, OnlyStream;
    if e.Http? {
      CommandOnCache(c, e.command, c');
    } else if e.Received? && e.frame.PushPromise? && e.frame.streamId != 0 {
      hide StreamFor, Reply, Results, Verdicts, PromisedAfter, Unwanted, Known;
    } else {
      hide PromiseEffect, Released, Reply, Results, Verdicts, StreamAfter, StreamFor, ClosesInSilence, SendsOnly;
    }
  }

  lemma CommandOnCache(c: Connection, cmd: HttpCommand, c': Connection)
    requires WellFormed(c) && CommandEffect(c, cmd, c')
    ensures forall id <- c'.cache :: id in c.cache && c'.cache[id] == c.cache[id]
  {
    hide Answers, FindHeader, SL.AllFor;
  }

  /** An entry that was there before has kept its stream's headers, and what promised it lies before, too. */
  lemma EntryLasts(states: seq<Connection>, inputs: seq<Input>, k: nat, id: StreamId)
    requires 0 < k < |states| == |inputs| + 1 && id in states[k - 1].cache && id in states[k].cache
    requires states[k].cache[id] == states[k - 1].cache[id] && HeadersStay(states[k - 1], states[k])
    requires EntryPromised(states, inputs, k - 1, id)
    ensures EntryPromised(states, inputs, k, id)
  {
    hide PromisedBy;
    var headers := states[k].store[states[k].cache[id]].requestHeaders;
    var n :| 0 <= n < k - 1 && PromisedBy(states, inputs, n, id, headers);
  }

  lemma EntryBegins(states: seq<Connection>, inputs: seq<Input>, k: nat, id: StreamId)
    requires 0 < k < |states| == |inputs| + 1 && id in states[k].cache && inputs[k - 1].event.Received?
    requires var (c, f, c') := (states[k - 1], inputs[k - 1].event.frame, states[k]);
             && PromisesGet(f) && f.promisedStreamId == id && Attended(c, f)
             && Known(c', id) && c'.cache[id] == c'.streams[id]
             && var s' := c'.store[c'.streams[id]];
                s'.state != Idle && s'.requestHeaders == HeadersFrom(StreamFor(c, id), f)
    ensures EntryPromised(states, inputs, k, id)
  {
    hide PromisesGet, Attended, HeadersFrom, StreamFor;
    assert PromisedBy(states, inputs, k - 1, id, states[k].store[states[k].cache[id]].requestHeaders);
  }

  /**
   Every entry of the push cache was promised: its stream has the request headers of the PUSH_PROMISE that cached it, if
   the promised id was unused then and the header block complete; none if the block was cut short; and those that it had
   before if the id was in use.
   */
  lemma {:induction false} CacheEntryIsPromised(states: seq<Connection>, inputs: seq<Input>, k: nat)
    requires IsRun(states, inputs) && k < |states|
    ensures |states| == |inputs| + 1 && CacheIsPromised(states, inputs, k)
  {
    hide IsRun, Step, Sound, Valid, Legal, WellFormed, EventEffect, NoneGivenUp, HL.AllHonest, EntryPromised, Grows,
         IdleHasNone, HeadersStay, NoneBack;
    RunShape(states, inputs);
    if k == 0 {
      NoEntries(states, inputs);
    } else {
      CacheEntryIsPromised(states, inputs, k - 1);
      EventPromises(states, inputs, k);
    }
  }

  lemma NoEntries(states: seq<Connection>, inputs: seq<Input>)
    requires |states| == |inputs| + 1 && states[0] == NewConnection()
    ensures CacheIsPromised(states, inputs, 0)
  {
    assert states[0].cache == map[] && states[0].store == [];
    hide EntryPromised, NewConnection;
  }

  lemma EventPromises(states: seq<Connection>, inputs: seq<Input>, k: nat)
    requires IsRun(states, inputs) && 0 < k < |states| == |inputs| + 1 && CacheIsPromised(states, inputs, k - 1)
    ensures CacheIsPromised(states, inputs, k)
  {
    hide IsRun, Step, Sound, Valid, Legal, WellFormed, EventEffect, NoneGivenUp, HL.AllHonest, EntryPromised, Grows,
         IdleHasNone, HeadersStay, NoneBack, Attended, PromisesGet, HeadersFrom, StreamFor;
    var (c, e, c') := (states[k - 1], inputs[k - 1].event, states[k]);
    RunStep(states, inputs, k);
    HL.RunHonest(states, inputs, k - 1);
    HonestNotGivenUp(c);
    StepHasEffect(c, inputs[k - 1]);
    RunGrows(states, inputs, k - 1, k);
    RunIsSound(states, inputs, k);
    GrowsNoneBack(c, c');
    EventKeeps(c, e, c');
    EventOnCache(c, e, c');
    forall id | id in c'.cache ensures EntryPromised(states, inputs, k, id) {
      if id in c.cache && c'.cache[id] == c.cache[id] {
        EntryLasts(states, inputs, k, id);
      } else {
        PromiseIsCached(c, e.frame, c');
        EntryBegins(states, inputs, k, id);
      }
    }
  }

  lemma RunIsSound(states: seq<Connection>, inputs: seq<Input>, k: nat)
    requires IsRun(states, inputs) && k < |states|
    ensures Sound(states[k])
  {
    RunKeeps(states, inputs, k);
    hide IsRun, Sound, AllSettled;
  }

  lemma PromiseIsCached(c: Connection, f: Frame, c': Connection)
    requires WellFormed(c) && Sound(c) && NoneGivenUp(c) && Attended(c, f) && f.streamId != 0
    requires EventEffect(c, Received(f), c') && IdleHasNone(c) && NoneBack(c, c')
    ensures Known(c', f.promisedStreamId)
    ensures var s' := c'.store[c'.streams[f.promisedStreamId]];
            s'.state != Idle && s'.requestHeaders == HeadersFrom(StreamFor(c, f.promisedStreamId), f)
  {
    hide Sound, NoneGivenUp, WellFormed, IdleHasNone, NoneBack, HeadersFrom, Keeps;
    NeverReservedLocal(c, f.promisedStreamId);
    assert PromiseEffect(c, f, c') by { hide PromiseEffect, Effect, CommandEffect, Attended, OnlyData; }
    PromiseKeeps(c, f, c');
    hide Attended, StreamFor, OnlyStream, Reply, Results, Verdicts, PromisedAfter, FindHeader, Effect, CommandEffect,
         OnlyData, EventEffect;
  }

  /**
   A GET that is answered from the push cache is answered by the stream of a promise: one of a GET of the same path, if
   the promised id was unused and the header block complete.
   */
  lemma GetIsAnsweredByPromise(states: seq<Connection>, inputs: seq<Input>, k: nat)
    returns (id: StreamId, n: nat)
    requires IsRun(states, inputs) && k + 1 < |states| == |inputs| + 1 && WellFormed(states[k])
    requires inputs[k].event.Http?
    requires var headers := inputs[k].event.command.headers;
             FindHeader(":method", headers) == "GET" && HasAnswer(states[k], FindHeader(":path", headers))
    ensures id in states[k].cache && n < k && inputs[n].event.Received? && inputs[n].event.frame.PushPromise?
    ensures states[k].cache[id] < |states[k].store| && Given(states[k], id, inputs[k].event.command, states[k + 1])
    ensures var (p, f) := (StreamFor(states[n], id), inputs[n].event.frame);
            && f.promisedStreamId == id && FindHeader(":method", f.headers) == "GET"
            && (p.state == Idle && f.endHeaders ==>
                  FindHeader(":path", f.headers) == FindHeader(":path", inputs[k].event.command.headers))
  {
    hide IsRun, WellFormed, FindHeader, Given, StreamFor, Attended, IdleHasNone;
    EveryEventHasItsEffect(states, inputs, k);
    CacheEntryIsPromised(states, inputs, k);
    var (c, cmd, c') := (states[k], inputs[k].event.command, states[k + 1]);
    assert CommandEffect(c, cmd, c');
    id :| id in c.cache && c.cache[id] < |c.store| && Answers(c.store[c.cache[id]], FindHeader(":path", cmd.headers))
        && Given(c, id, cmd, c');
    assert EntryPromised(states, inputs, k, id);
    n :| 0 <= n < k && PromisedBy(states, inputs, n, id, c.store[c.cache[id]].requestHeaders);
  }
}
