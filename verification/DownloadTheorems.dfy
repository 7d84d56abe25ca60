/** What a command is completed with: the response that arrived, all of it and nothing else, or the reset. */
module DownloadTheorems {
  import opened Wrappers
  import opened Frames
  import opened StreamState
  import opened StreamSpec
  import opened ConnectionSpec
  import opened Runs
  import opened Actions
  import opened ReceiveTheorems
  import opened ReplyTheorems
  import opened CommandTheorems
  import opened EventTheorems
  import CT = CompletionTheorems
  import HL = HonestLemmas
  import IT = IdTheorems
  import SL = StreamLemmas

  // ---------------------------------------------------------------- without a reset

  /** Credit for the connection as a whole has closed the stream, so that its command was told nothing. */
  ghost predicate ClosedInSilence(states: seq<Connection>, inputs: seq<Input>, k: nat, h: nat)
    requires k < |states| == |inputs| + 1
  {
    exists n :: 0 <= n < k && ClosedByCredit(states, inputs, n, h)
  }

  /**
   In every state: a command whose stream has closed, not in silence, and for which no RST_STREAM was received or sent,
   was told exactly what came in.
   */
  lemma CompletedWithWhatCame(states: seq<Connection>, inputs: seq<Input>, k: nat, h: nat)
    requires IsRun(states, inputs) && |states| == |inputs| + 1 && k < |states| && h < |states[k].store|
    requires states[k].store[h].command.Some? && states[k].store[h].state == Closed
    requires !ClosedInSilence(states, inputs, k, h) && NoReset(states, inputs, 0, k, states[k].store[h].id)
    ensures var s := states[k].store[h];
            Completion(s.command.value.id, Response(s.responseHeaders, s.responseBody)) in states[k].writer.completions
  {
    hide IsRun, NoReset, ClosedByCredit;
    RunShape(states, inputs);
    SilenceIsCredit(states, inputs, k, h);
    NoResetNoError(states, inputs, 0, k, h);
    ToldTheResponse(states, inputs, k, h);
  }

  lemma ToldTheResponse(states: seq<Connection>, inputs: seq<Input>, k: nat, h: nat)
    requires IsRun(states, inputs) && k < |states| && h < |states[k].store|
    requires var s := states[k].store[h]; s.command.Some? && s.state == Closed && !s.hist.silentClose && s.err.None?
    ensures var s := states[k].store[h];
            Completion(s.command.value.id, Response(s.responseHeaders, s.responseBody)) in states[k].writer.completions
  {
    HL.RunHonest(states, inputs, k);
    assert HL.Honest(states[k].store[h], states[k].writer.completions);
    hide IsRun;
  }

  /** The event after state `j` issued the id, it has not been issued again, and the server has not promised it. */
  ghost predicate Awaited(states: seq<Connection>, inputs: seq<Input>, j: nat, k: nat, id: StreamId)
    requires j < k < |states| == |inputs| + 1
  {
    && IT.Issues(states, j)
    && states[j + 1].hist.issuedIds != []
    && id == states[j + 1].hist.issuedIds[|states[j + 1].hist.issuedIds| - 1]
    && (forall n :: j < n < k ==> !IsPromised(inputs[n], id))
    && !Reissued(states[j + 1], states[k], id)
  }

  /**
   Download end to end: the command of a request whose stream has closed, not in silence and without an RST_STREAM
   received or sent since, is completed with the headers and the body of the frames that were addressed to the stream
   after the request, all of them, in order.
   */
  lemma DownloadIsComplete(states: seq<Connection>, inputs: seq<Input>, j: nat, k: nat, id: StreamId)
    requires IsRun(states, inputs) && j < k < |states| == |inputs| + 1 && Awaited(states, inputs, j, k, id)
    ensures inputs[j].event.Http? && |states[j].store| < |states[k].store|
    ensures var h, cmd := |states[j].store|, inputs[j].event.command;
            var x := TakeAll(Intake(true, [], []), FramesFor(inputs[j + 1..k], id));
            && states[k].store[h].command == Some(cmd)
            && IntakeOf(states[k].store[h]) == x
            && (states[k].store[h].state == Closed && !ClosedInSilence(states, inputs, k, h)
                && NoReset(states, inputs, j + 1, k, id) ==>
                  Completion(cmd.id, Response(x.headers, x.body)) in states[k].writer.completions)
  {
    hide Step, Sound, AllSettled, IsRun, NewConnection, TakeAll, FramesFor, Take, IsPromised, Reissued, Grows,
         HL.Fresh, NoReset, ClosedByCredit;
    var h := |states[j].store|;
    HL.RequestAt(states, inputs, j);
    StreamIsolation(states, inputs, j + 1, k, id, h);
    CommandIsKept(states, inputs, j + 1, k, h);
    HasId(states, inputs, k, id, h);
    var s := states[k].store[h];
    if s.state == Closed && !ClosedInSilence(states, inputs, k, h) && NoReset(states, inputs, j + 1, k, id) {
      SilenceIsCredit(states, inputs, k, h);
      NoResetNoError(states, inputs, j + 1, k, h);
      ToldTheResponse(states, inputs, k, h);
    }
  }

  lemma HasId(states: seq<Connection>, inputs: seq<Input>, k: nat, id: StreamId, h: nat)
    requires IsRun(states, inputs) && k < |states| && Serves(states[k], id, h)
    ensures states[k].store[h].id == id
  {
    RunKeeps(states, inputs, k);
    hide IsRun, StreamSound, TotalWritten;
  }

  /** Where commands are executed once and headers are complete, that is the only completion of the command. */
  lemma DownloadIsTheAnswer(states: seq<Connection>, inputs: seq<Input>, j: nat, k: nat, id: StreamId, n: nat)
    requires IsRun(states, inputs) && j < k < |states| == |inputs| + 1 && Awaited(states, inputs, j, k, id)
    requires CT.ProperInputs(inputs) && inputs[j].event.Http? && |states[j].store| < |states[k].store|
    requires states[k].store[|states[j].store|].state == Closed
    requires !ClosedInSilence(states, inputs, k, |states[j].store|) && NoReset(states, inputs, j + 1, k, id)
    requires n < |states[k].writer.completions|
    requires states[k].writer.completions[n].command == inputs[j].event.command.id
    ensures var x := TakeAll(Intake(true, [], []), FramesFor(inputs[j + 1..k], id));
            states[k].writer.completions[n].result == Response(x.headers, x.body)
  {
    hide IsRun, Awaited, CT.ProperInputs, TakeAll, FramesFor, CT.Count, NoReset, ClosedInSilence, IntakeOf;
    DownloadIsComplete(states, inputs, j, k, id);
    var cmd := inputs[j].event.command;
    var x := TakeAll(Intake(true, [], []), FramesFor(inputs[j + 1..k], id));
    OnlyCompletion(states, inputs, k, Completion(cmd.id, Response(x.headers, x.body)), n);
  }

  lemma OnlyCompletion(states: seq<Connection>, inputs: seq<Input>, k: nat, answer: Completion, n: nat)
    requires IsRun(states, inputs) && CT.ProperInputs(inputs) && k < |states|
    requires answer in states[k].writer.completions && n < |states[k].writer.completions|
    requires states[k].writer.completions[n].command == answer.command
    ensures states[k].writer.completions[n] == answer
  {
    hide IsRun, CT.ProperInputs, CT.Count;
    var cs := states[k].writer.completions;
    var m :| 0 <= m < |cs| && cs[m] == answer;
    CT.CompletedAtMostOnce(states, inputs, k, answer.command);
    CT.CountAtLeast(cs, answer.command, m, n);
  }

  lemma CommandIsKept(states: seq<Connection>, inputs: seq<Input>, j: nat, k: nat, h: nat)
    requires IsRun(states, inputs) && j <= k < |states| && h < |states[j].store| && states[j].store[h].command.Some?
    ensures h < |states[k].store| && states[k].store[h].command == states[j].store[h].command
  {
    RunGrows(states, inputs, j, k);
    hide IsRun, SL.Extends;
    assert StreamGrows(states[j].store[h], states[k].store[h]);
  }

  // ---------------------------------------------------------------- with a reset

  /** The command has been told the failure, and where commands are executed once and headers complete, nothing else. */
  ghost predicate Failed(c: Connection, inputs: seq<Input>, cmd: nat, error: StreamError) {
    && Completion(cmd, StreamFailure(error)) in c.writer.completions
    && (CT.ProperInputs(inputs) ==>
          forall m :: 0 <= m < |c.writer.completions| && c.writer.completions[m].command == cmd ==>
            c.writer.completions[m].result == StreamFailure(error))
  }

  lemma FailedForEver(states: seq<Connection>, inputs: seq<Input>, n: nat, k: nat, cmd: nat, error: StreamError)
    requires IsRun(states, inputs) && n <= k < |states|
    requires Completion(cmd, StreamFailure(error)) in states[n].writer.completions
    ensures Failed(states[k], inputs, cmd, error)
  {
    hide IsRun, CT.ProperInputs;
    RunGrows(states, inputs, n, k);
    var cs := states[k].writer.completions;
    var was := states[n].writer.completions;
    var i :| 0 <= i < |was| && was[i] == Completion(cmd, StreamFailure(error));
    assert cs[i] == was[i];
    hide Grows;
    forall m | CT.ProperInputs(inputs) && 0 <= m < |cs| && cs[m].command == cmd
      ensures cs[m].result == StreamFailure(error)
    {
      OnlyCompletion(states, inputs, k, Completion(cmd, StreamFailure(error)), m);
    }
  }

  /**
   The server resets a stream that is under way: its command is told so, with the server's code, by that very event, and
   never told anything else.
   */
  lemma ResetIsReported(states: seq<Connection>, inputs: seq<Input>, n: nat, k: nat, id: StreamId, code: ErrorCode)
    requires IsRun(states, inputs) && n < k < |states| == |inputs| + 1
    requires inputs[n].event == Received(RstStream(id, code)) && id != 0 && Known(states[n], id)
    requires var s := states[n].store[states[n].streams[id]]; s.state !in {Idle, Closed} && s.command.Some?
    ensures var cmd := states[n].store[states[n].streams[id]].command.value;
            && states[n + 1].writer.completions ==
               states[n].writer.completions + [Completion(cmd.id, StreamFailure(ClosedByServer(code)))]
            && states[n + 1].writer.log == states[n].writer.log
            && Failed(states[k], inputs, cmd.id, ClosedByServer(code))
  {
    hide IsRun, WellFormed, Failed;
    EveryEventHasItsEffect(states, inputs, n);
    var (c, c') := (states[n], states[n + 1]);
    var cmd := c.store[c.streams[id]].command.value;
    var failure := Completion(cmd.id, StreamFailure(ClosedByServer(code)));
    assert c'.writer.completions == c.writer.completions + [failure];
    assert c'.writer.completions[|c.writer.completions|] == failure;
    hide EventEffect;
    FailedForEver(states, inputs, n + 1, k, cmd.id, ClosedByServer(code));
  }

  /** The code with which the client gives a stream up: STREAM_CLOSED for a frame out of turn, REFUSED_STREAM else. */
  function RefusalCode(s: Stream, f: Frame): ErrorCode {
    if Forbidden(s.state, f) then 5 else 7
  }

  /** An RST_STREAM goes out for a stream that was not closed, on which a frame came; its command is told. */
  predicate Refused(c: Connection, e: Event, id: StreamId, c': Connection) {
    && e.Received? && TargetOf(e.frame) == id
    && var (s, code) := (StreamFor(c, id), RefusalCode(StreamFor(c, id), e.frame));
       && s.state != Closed && RstStream(id, code) in c'.writer.log
       && Known(c', id) && c'.store[c'.streams[id]].state == Closed
       && (s.command.Some? ==>
             Completion(s.command.value.id, StreamFailure(ClosedByClient(code))) in c'.writer.completions)
  }

  lemma ResetAmong(log: seq<Frame>, own: seq<Frame>, reply: seq<Frame>, m: nat)
    requires |log| <= m < |log + own + reply| && (log + own + reply)[m].RstStream?
    requires forall k :: 0 <= k < |own| ==> !own[k].RstStream?
    ensures |log + own| <= m && (log + own + reply)[m] == reply[m - |log + own|]
  {
  }

  /** Wherever RST_STREAM is the reply, it is the whole reply, and the command is told. */
  lemma ReplyRefuses(s: Stream, f: Frame, k: nat)
    requires k < |Reply(s, f)| && Reply(s, f)[k].RstStream?
    ensures Reply(s, f) == [RstStream(s.id, RefusalCode(s, f))]
    ensures s.state != Closed && StreamAfter(s, f).state == Closed
    ensures Results(s, f) != [] && Results(s, f)[0] == StreamFailure(ClosedByClient(RefusalCode(s, f)))
  {
  }

  lemma ToldFirst(cs: seq<Completion>, s: Stream, results: seq<CommandResult>)
    requires results != []
    ensures s.command.Some? ==> Completion(s.command.value.id, results[0]) in cs + Verdicts(s, results)
  {
    if s.command.Some? {
      assert (cs + Verdicts(s, results))[|cs|] == Completion(s.command.value.id, results[0]);
    }
  }

  lemma FrameRefuses(c: Connection, f: Frame, c': Connection, id: StreamId)
    requires Sound(c) && NoneGivenUp(c) && !f.PushPromise? && Effect(c, f, c') && !f.WindowUpdate?
    requires SendsReset(c.writer.log, c'.writer.log, id)
    ensures Refused(c, Received(f), id, c')
  {
    hide Sound, NoneGivenUp, SL.Valid, OnlyStream, Reply, Results, StreamAfter, Verdicts, RefusalCode, NotGivenUp;
    StreamForIsValid(c, f.GetStreamId());
    var s := StreamFor(c, f.GetStreamId());
    var (log, own, reply) := (c.writer.log, ConnectionReply(c, f), Reply(s, f));
    var m :| |log| <= m < |c'.writer.log| && c'.writer.log[m].RstStream? && c'.writer.log[m].streamId == id;
    hide StreamFor;
    ResetAmong(log, own, reply, m);
    ReplyRefuses(s, f, m - |log + own|);
    ToldFirst(c.writer.completions, s, Results(s, f));
  }

  function RefusalOf(p: Stream, f: Frame): seq<Frame> {
    if Unwanted(p, f) then [RstStream(p.id, 7)] else []
  }

  function FailureOf(p: Stream, f: Frame): seq<CommandResult> {
    if Unwanted(p, f) then [StreamFailure(ClosedByClient(7))] else []
  }

  /** The promised stream ends up closed, and its command is told, exactly where RST_STREAM goes out for it. */
  lemma PromiseReplyRefuses(p: Stream, f: Frame, k: nat)
    requires f.PushPromise? && k < |Reply(p, f) + RefusalOf(p, f)| && (Reply(p, f) + RefusalOf(p, f))[k].RstStream?
    ensures Reply(p, f) + RefusalOf(p, f) == [RstStream(p.id, RefusalCode(p, f))]
    ensures p.state != Closed && PromisedAfter(p, f).state == Closed
    ensures Results(p, f) + FailureOf(p, f) != []
    ensures (Results(p, f) + FailureOf(p, f))[0] == StreamFailure(ClosedByClient(RefusalCode(p, f)))
  {
    if Unwanted(p, f) {
      assert Reply(p, f) == [] && Results(p, f) == [];
    } else {
      ReplyRefuses(p, f, k);
    }
    hide FindHeader;
  }

  lemma PromiseWrites(c: Connection, f: Frame, c': Connection)
    requires f.PushPromise? && PromiseEffect(c, f, c') && Attended(c, f)
    requires StreamFor(c, f.promisedStreamId).id == f.promisedStreamId
    ensures var (id, p) := (f.promisedStreamId, StreamFor(c, f.promisedStreamId));
            && Known(c', id) && c'.store[c'.streams[id]].state == PromisedAfter(p, f).state
            && c'.writer.log == c.writer.log + [] + (Reply(p, f) + RefusalOf(p, f))
            && c'.writer.completions == c.writer.completions + Verdicts(p, Results(p, f) + FailureOf(p, f))
  {
    hide OnlyStream, Reply, Results, Verdicts, Unwanted, PromisedAfter, PromisesGet, StreamFor;
  }

  lemma PromiseRefuses(c: Connection, f: Frame, c': Connection, id: StreamId)
    requires Sound(c) && NoneGivenUp(c) && f.PushPromise? && PromiseEffect(c, f, c')
    requires SendsReset(c.writer.log, c'.writer.log, id)
    ensures Refused(c, Received(f), id, c')
  {
    hide Sound, NoneGivenUp, SL.Valid, Reply, Results, Verdicts, RefusalCode, NotGivenUp, PromisedAfter, Attended,
         PromisesGet, StreamFor, RefusalOf, FailureOf;
    assert Attended(c, f) by { hide OnlyStream; }
    StreamForIsValid(c, f.promisedStreamId);
    PromiseWrites(c, f, c');
    hide PromiseEffect;
    var p := StreamFor(c, f.promisedStreamId);
    var log, reply := c.writer.log, Reply(p, f) + RefusalOf(p, f);
    var m :| |log| <= m < |c'.writer.log| && c'.writer.log[m].RstStream? && c'.writer.log[m].streamId == id;
    ResetAmong(log, [], reply, m);
    PromiseReplyRefuses(p, f, m - |log|);
    ToldFirst(c.writer.completions, p, Results(p, f) + FailureOf(p, f));
  }

  lemma CommandNeverResets(c: Connection, cmd: HttpCommand, c': Connection, id: StreamId)
    requires WellFormed(c) && CommandEffect(c, cmd, c')
    ensures !SendsReset(c.writer.log, c'.writer.log, id)
  {
    hide FindHeader, SL.AllFor;
  }

  /** The client sends RST_STREAM only to refuse a frame, and whoever waits for the stream is told. */
  lemma SendingResetRefuses(c: Connection, e: Event, c': Connection, id: StreamId)
    requires Sound(c) && WellFormed(c) && NoneGivenUp(c) && EventEffect(c, e, c')
    requires SendsReset(c.writer.log, c'.writer.log, id)
    ensures Refused(c, e, id, c')
  {
    hide Sound, NoneGivenUp, CommandEffect, PromiseEffect, Effect, Refused;
    if e.Http? {
      CommandNeverResets(c, e.command, c', id);
    } else if e.Received? && e.frame.GetStreamId() != 0 {
      if e.frame.PushPromise? {
        PromiseRefuses(c, e.frame, c', id);
      } else if !e.frame.WindowUpdate? {
        FrameRefuses(c, e.frame, c', id);
      }
    }
  }

  /**
   The client resets a stream: some frame for it was out of turn (code 5), or a header block cut short or a promise
   of something other than a GET (code 7), the stream was not closed and now is, and its command, if it has one, is
   told so, with that code, and never told anything else.
   */
  lemma RefusalIsReported(states: seq<Connection>, inputs: seq<Input>, n: nat, k: nat, id: StreamId)
    requires IsRun(states, inputs) && n < k < |states| == |inputs| + 1
    requires SendsReset(states[n].writer.log, states[n + 1].writer.log, id)
    ensures Refused(states[n], inputs[n].event, id, states[n + 1])
    ensures var s := StreamFor(states[n], id);
            s.command.Some? ==>
              Failed(states[k], inputs, s.command.value.id, ClosedByClient(RefusalCode(s, inputs[n].event.frame)))
  {
    hide IsRun, WellFormed, Failed, EventEffect, SendsReset, Sound, Valid, Legal, Step, NoneGivenUp, HL.AllHonest;
    EveryEventHasItsEffect(states, inputs, n);
    RunStep(states, inputs, n + 1);
    HL.RunHonest(states, inputs, n);
    HonestNotGivenUp(states[n]);
    SendingResetRefuses(states[n], inputs[n].event, states[n + 1], id);
    var s := StreamFor(states[n], id);
    if s.command.Some? {
      FailedForEver(states, inputs, n + 1, k, s.command.value.id,
          ClosedByClient(RefusalCode(s, inputs[n].event.frame)));
    }
  }
}
