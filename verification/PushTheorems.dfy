/** The push cache: what its entries are, and how often a promise is used. */
module PushTheorems {
  import opened Frames
  import opened StreamSpec
  import opened ConnectionSpec
  import opened Runs
  import opened Actions
  import opened Ledger
  import opened IdTheorems

  /** Every cache entry is the very object that the stream map holds for the same id. */
  ghost predicate CacheIsPart(c: Connection) {
    forall id <- c.cache :: id in c.streams && c.streams[id] == c.cache[id]
  }

  /** Each insertion pays for at most one GET. */
  ghost predicate UsedOnce(c: Connection) {
    forall id: StreamId :: c.hist.consumed[id] + (if id in c.cache then 1 else 0) <= c.hist.cached[id]
  }

  lemma ActUsesOnce(c: Connection, a: Action)
    requires Sound(c) && UsedOnce(c) && Act(c, a).Ok?
    ensures UsedOnce(Act(c, a).value)
  {
    hide Act, Sound;
    ActOnCache(c, a);
  }

  lemma ActCachesPart(c: Connection, a: Action)
    requires Sound(c) && CacheIsPart(c) && Act(c, a).Ok?
    requires a.Requests? ==> Allocatable(c.streams.Keys)
    ensures CacheIsPart(Act(c, a).value)
  {
    hide Act, Sound, NextId, Allocatable;
    ActOnCache(c, a);
    ActOnStreams(c, a);
    if a.Requests? {
      NextIdIsFresh(c.streams.Keys);
    }
  }

  lemma StepUsesOnce(c: Connection, i: Input)
    requires Sound(c) && UsedOnce(c) && WellFormed(c) && Step(c, i).Ok?
    ensures UsedOnce(Step(c, i).value)
  {
    hide Step, Sound, UsedOnce, Act, Belongs;
    forall c1, a | Sound(c1) && UsedOnce(c1) && Belongs(i.event, a) && Act(c1, a).Ok?
      ensures UsedOnce(Act(c1, a).value)
    {
      ActUsesOnce(c1, a);
    }
    StepKeepsInvariant(c, i, c1 => UsedOnce(c1));
  }

  lemma StepCachesPart(c: Connection, i: Input)
    requires Sound(c) && CacheIsPart(c) && WellFormed(c) && Step(c, i).Ok?
    requires AddsRequest(c, Step(c, i).value) ==> Allocatable(c.streams.Keys)
    ensures CacheIsPart(Step(c, i).value)
  {
    hide Sound, CacheIsPart, Act, AddsRequest, Allocatable;
    if i.event.Http? {
      hide ExecuteHttp;
      HttpCachesPart(c, i.event.command, i.order);
    } else {
      hide Step;
      forall c1, a | Sound(c1) && CacheIsPart(c1) && Belongs(i.event, a) && Act(c1, a).Ok?
        ensures CacheIsPart(Act(c1, a).value)
      {
        ActCachesPart(c1, a);
      }
      StepKeepsInvariant(c, i, c1 => CacheIsPart(c1));
    }
  }

  lemma HttpCachesPart(c: Connection, cmd: HttpCommand, order: seq<StreamId>)
    requires Sound(c) && CacheIsPart(c) && ExecuteHttp(c, cmd, order).Ok?
    requires AddsRequest(c, ExecuteHttp(c, cmd, order).value) ==> Allocatable(c.streams.Keys)
    ensures CacheIsPart(ExecuteHttp(c, cmd, order).value)
  {
    var c0 := CountCommand(c, cmd);
    CountCommandKeeps(c, cmd);
    SoundIsWellFormed(c0);
    var a := HttpAct(c0, cmd, order);
    hide Act, ByMethod, Sound, NextId, Allocatable;
    ActOnStreams(c0, a);
    ActCachesPart(c0, a);
  }

  lemma NothingCached()
    ensures UsedOnce(NewConnection()) && CacheIsPart(NewConnection())
  {
  }

  /** A cached promise is used by at most one GET for each time it was cached. */
  lemma {:induction false} PromisesAreUsedOnce(states: seq<Connection>, inputs: seq<Input>, k: nat)
    requires IsRun(states, inputs) && k < |states|
    ensures UsedOnce(states[k])
  {
    hide IsRun, Step, Sound, Valid, Legal, WellFormed, UsedOnce, CacheIsPart, NewConnection;
    if k == 0 {
      RunShape(states, inputs);
      NothingCached();
    } else {
      PromisesAreUsedOnce(states, inputs, k - 1);
      RunStep(states, inputs, k);
      StepUsesOnce(states[k - 1], inputs[k - 1]);
    }
  }

  /** With fresh client ids, the push cache is part of the stream map. */
  lemma {:induction false} CacheMirrorsStreams(states: seq<Connection>, inputs: seq<Input>, k: nat)
    requires IsRun(states, inputs) && k < |states| && AlwaysAllocatable(states, 0, k)
    ensures CacheIsPart(states[k])
  {
    hide IsRun, Step, Sound, Valid, Legal, WellFormed, UsedOnce, CacheIsPart, NewConnection, AddsRequest, Allocatable;
    if k == 0 {
      RunShape(states, inputs);
      NothingCached();
    } else {
      CacheMirrorsStreams(states, inputs, k - 1);
      RunStep(states, inputs, k);
      if AddsRequest(states[k - 1], states[k]) {
        AddingIssues(states[k - 1], states[k]);
        assert Issues(states, k - 1);
      }
      StepCachesPart(states[k - 1], inputs[k - 1]);
    }
  }
}
